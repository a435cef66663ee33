/** serialize_to_jsonl: a payload becomes newline-delimited JSON, one
    `json.dumps` text per line. `json.dumps` is not modelled; it is the
    `dumps` parameter, of which the model assumes only that its text never
    holds a raw line feed (it escapes those inside strings). */
module Jsonl {
  import opened Wrappers
  import opened Json

  /** json.dumps never emits a raw '\n'. */
  ghost predicate NoRawNewline(dumps: JSON -> string) {
    forall j :: '\n' !in dumps(j)
  }

  /** json.loads undoes json.dumps. */
  ghost predicate LoadsUndoesDumps(dumps: JSON -> string, loads: string -> Option<JSON>) {
    forall j :: loads(dumps(j)) == Some(j)
  }

  /** `{"value": payload}`, the wrapper for a payload that is neither a list
      nor a dict. */
  function WrapValue(payload: JSON): JSON {
    JObject(map["value" := payload])
  }

  /** `"".join(json.dumps(item) + "\n" for item in items)` */
  function JoinLines(items: seq<JSON>, dumps: JSON -> string): (text: string)
    ensures text == "" <==> items == []
    ensures text != "" ==> text[|text| - 1] == '\n'
  {
    if items == [] then "" else dumps(items[0]) + "\n" + JoinLines(items[1..], dumps)
  }

  /** serialize_to_jsonl */
  function SerializeToJsonl(payload: JSON, dumps: JSON -> string): (text: string)
    ensures text == "" <==> LineRecords(payload) == []
    ensures text != "" ==> text[|text| - 1] == '\n'
  {
    match payload
    case JNull => ""
    case JObject(_) => dumps(payload) + "\n"
    case JArray(items) => JoinLines(items, dumps)
    case _ => dumps(WrapValue(payload)) + "\n"
  }

  /** The records the output holds, one per line: none for None, the items
      of a list, a dict itself, and anything else wrapped as {"value": ...}. */
  function LineRecords(payload: JSON): seq<JSON> {
    match payload
    case JNull => []
    case JObject(_) => [payload]
    case JArray(items) => items
    case _ => [WrapValue(payload)]
  }

  function DumpEach(items: seq<JSON>, dumps: JSON -> string): (texts: seq<string>)
    ensures |texts| == |items|
    ensures forall i :: 0 <= i < |items| ==> texts[i] == dumps(items[i])
  {
    if items == [] then [] else [dumps(items[0])] + DumpEach(items[1..], dumps)
  }

  /** Python `s.split(sep)`: the pieces between separators, always at least
      one (the text after the last separator, possibly empty). */
  function SplitOn(s: string, sep: char): (pieces: seq<string>)
    ensures |pieces| >= 1
  {
    if s == [] then [""]
    else
      var rest := SplitOn(s[1..], sep);
      if s[0] == sep then [""] + rest else [[s[0]] + rest[0]] + rest[1..]
  }

  function Count(s: string, c: char): nat {
    if s == [] then 0 else (if s[0] == c then 1 else 0) + Count(s[1..], c)
  }

  /** Parses newline-delimited JSON back: split on '\n', drop the empty piece
      after the final newline, and load each line. */
  function ParseJsonl(text: string, loads: string -> Option<JSON>): Option<seq<JSON>> {
    var pieces := SplitOn(text, '\n');
    var lines := if pieces[|pieces| - 1] == "" then pieces[..|pieces| - 1] else pieces;
    LoadAll(lines, loads)
  }

  function LoadAll(lines: seq<string>, loads: string -> Option<JSON>): Option<seq<JSON>> {
    if lines == [] then Some([])
    else
      match (loads(lines[0]), LoadAll(lines[1..], loads))
      case (Some(v), Some(vs)) => Some([v] + vs)
      case _ => None
  }

  // ---------------------------------------------------------------- properties

  /** Every shape serialises as the join of its line records. */
  lemma SerializeAsLines(payload: JSON, dumps: JSON -> string)
    ensures SerializeToJsonl(payload, dumps) == JoinLines(LineRecords(payload), dumps)
  {
    match payload
    case JArray(_) =>
    case JNull =>
    case _ =>
      var one := LineRecords(payload);
      assert one[1..] == [];
  }

  lemma {:induction false} SplitAfterLine(line: string, rest: string, sep: char)
    requires sep !in line
    ensures SplitOn(line + [sep] + rest, sep) == [line] + SplitOn(rest, sep)
  {
    var s := line + [sep] + rest;
    if line == [] {
      assert s[1..] == rest;
    } else {
      assert s[1..] == line[1..] + [sep] + rest;
      SplitAfterLine(line[1..], rest, sep);
      assert [line[0]] + line[1..] == line;
    }
  }

  lemma {:induction false} CountAppend(a: string, b: string, c: char)
    ensures Count(a + b, c) == Count(a, c) + Count(b, c)
  {
    if a != [] {
      assert (a + b)[1..] == a[1..] + b;
      CountAppend(a[1..], b, c);
    } else {
      assert a + b == b;
    }
  }

  lemma {:induction false} CountAbsent(s: string, c: char)
    requires c !in s
    ensures Count(s, c) == 0
  {
    if s != [] {
      CountAbsent(s[1..], c);
    }
  }

  /** Splitting the joined lines on '\n' gives the dumped items, in order,
      then the empty piece after the final newline. */
  lemma {:induction false} JoinLinesSplit(items: seq<JSON>, dumps: JSON -> string)
    requires NoRawNewline(dumps)
    ensures SplitOn(JoinLines(items, dumps), '\n') == DumpEach(items, dumps) + [""]
  {
    if items != [] {
      JoinLinesSplit(items[1..], dumps);
      SplitAfterLine(dumps(items[0]), JoinLines(items[1..], dumps), '\n');
    }
  }

  /** The joined lines hold exactly one '\n' per item. */
  lemma {:induction false} JoinLinesNewlines(items: seq<JSON>, dumps: JSON -> string)
    requires NoRawNewline(dumps)
    ensures Count(JoinLines(items, dumps), '\n') == |items|
  {
    if items != [] {
      JoinLinesNewlines(items[1..], dumps);
      var line := dumps(items[0]);
      CountAbsent(line, '\n');
      CountAppend(line, "\n", '\n');
      CountAppend(line + "\n", JoinLines(items[1..], dumps), '\n');
    }
  }

  /** The output of serialize_to_jsonl has one line per line record: that
      many newlines, and splitting on '\n' gives their dumps in order
      followed by one empty piece. None gives "", a dict one line, a list
      one line per item, anything else one line for {"value": payload}. */
  lemma SerializedLines(payload: JSON, dumps: JSON -> string)
    requires NoRawNewline(dumps)
    ensures Count(SerializeToJsonl(payload, dumps), '\n') == |LineRecords(payload)|
    ensures SplitOn(SerializeToJsonl(payload, dumps), '\n') == DumpEach(LineRecords(payload), dumps) + [""]
  {
    SerializeAsLines(payload, dumps);
    JoinLinesSplit(LineRecords(payload), dumps);
    JoinLinesNewlines(LineRecords(payload), dumps);
  }

  lemma {:induction false} LoadDumped(items: seq<JSON>, dumps: JSON -> string, loads: string -> Option<JSON>)
    requires LoadsUndoesDumps(dumps, loads)
    ensures LoadAll(DumpEach(items, dumps), loads) == Some(items)
  {
    if items != [] {
      var texts := DumpEach(items, dumps);
      assert texts[1..] == DumpEach(items[1..], dumps);
      LoadDumped(items[1..], dumps, loads);
      assert [items[0]] + items[1..] == items;
    }
  }

  /** Serialising and then parsing the lines back recovers the line records
      in order; for a list of records, the list itself. */
  lemma JsonlRoundTrip(payload: JSON, dumps: JSON -> string, loads: string -> Option<JSON>)
    requires NoRawNewline(dumps) && LoadsUndoesDumps(dumps, loads)
    ensures ParseJsonl(SerializeToJsonl(payload, dumps), loads) == Some(LineRecords(payload))
  {
    SerializedLines(payload, dumps);
    var texts := DumpEach(LineRecords(payload), dumps);
    assert (texts + [""])[..|texts|] == texts;
    LoadDumped(LineRecords(payload), dumps, loads);
  }
}

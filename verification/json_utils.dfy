/** JSON helpers: recursive truncation of long string values before
    serialisation, a length guard on the serialised text, a diagnostic for
    parse errors, and the pre-checks of tool-call arguments. The JSON
    parser and serialiser are not modelled: a parse outcome and a
    serialising function are inputs. */
module JsonUtils {
  import opened Results
  import opened Text

  /** A decoded JSON value. Objects keep their keys in insertion order;
      numbers, booleans and null are `Scalar`s, kept as their text. */
  datatype JsonValue =
    | JString(s: string)
    | JObject(entries: seq<(string, JsonValue)>)
    | JList(items: seq<JsonValue>)
    | Scalar(text: string)

  // ---------------------------------------------------------------------
  // Truncation of long values

  function Marker(dropped: int): string {
    "\n\n... [TRUNCATED " + IntToString(dropped) + " chars] ...\n\n"
  }

  /** `s[k:]` with Python's meaning for a negative `k`. */
  function SliceFrom(s: string, k: int): (r: string)
    ensures |r| <= |s| && r == s[|s| - |r|..]
  {
    if k >= 0 then (if k <= |s| then s[k..] else [])
    else if |s| + k >= 0 then s[|s| + k..]
    else s
  }

  /** The long-string rule as written:
      `value[:m//2] + marker + value[-m//2:]`. Unary minus binds first, so
      the tail slice starts at `(-m)//2`, which is `-ceil(m/2)`, and for
      `m == 0` it is `value[0:]`, the whole string. */
  function TruncateStringAsWritten(value: string, m: nat): (r: string)
    requires |value| > m
    ensures |r| >= m / 2 && r[..m / 2] == value[..m / 2]
    ensures m > 0 ==>
      |r| == m + |Marker(|value| - m)| && r[|r| - (m - m / 2)..] == value[|value| - (m - m / 2)..]
    ensures m == 0 ==> r == Marker(|value|) + value
  {
    var head := value[..m / 2];
    var tail := SliceFrom(value, (-(m as int)) / 2);
    var mark := Marker(|value| - m);
    if m == 0 then
      assert head == [] && tail == value;
      head + mark + tail
    else
      assert (-(m as int)) / 2 == -(m - m / 2);
      assert tail == value[|value| - (m - m / 2)..];
      var r := head + mark + tail;
      assert r[..m / 2] == head;
      assert r[|r| - (m - m / 2)..] == tail;
      r
  }

  /** The long-string rule as intended: the first `floor(m/2)` and the
      last `ceil(m/2)` characters around a marker counting the rest. */
  function TruncateString(value: string, m: nat): (r: string)
    requires |value| > m
    ensures |r| == m + |Marker(|value| - m)|
    ensures r[..m / 2] == value[..m / 2]
    ensures r[|r| - (m - m / 2)..] == value[|value| - (m - m / 2)..]
  {
    var tail := m - m / 2;
    var r := value[..m / 2] + Marker(|value| - m) + value[|value| - tail..];
    assert r[|r| - tail..] == value[|value| - tail..];
    r
  }

  /** For every positive limit the written rule is the intended one. */
  lemma TruncateStringAgrees(value: string, m: nat)
    requires |value| > m >= 1
    ensures TruncateStringAsWritten(value, m) == TruncateString(value, m)
  {
    assert (-(m as int)) / 2 == -(m - m / 2);
  }

  /** With a limit of 0 the written rule keeps the whole string behind a
      marker claiming every character was cut: "ab" becomes the marker for
      2 dropped characters followed by "ab". The intended rule keeps nothing. */
  lemma TruncateStringAtZero(value: string)
    requires |value| > 0
    ensures TruncateStringAsWritten(value, 0) == Marker(|value|) + value
    ensures TruncateString(value, 0) == Marker(|value|)
    ensures |TruncateStringAsWritten(value, 0)| > |value|
  {
    assert SliceFrom(value, (-(0 as int)) / 2) == value;
    assert value[..0] == "";
    assert TruncateStringAsWritten(value, 0) == "" + Marker(|value|) + value;
    assert |Marker(|value|)| > 0;
  }

  /** A list item: objects are truncated, strings longer than `m` are cut
      to `m` characters and "...", anything else is kept. */
  function TruncateItem(item: JsonValue, m: nat): (r: JsonValue)
    ensures item.JString? && |item.s| <= m ==> r == item
    ensures item.JString? && |item.s| > m ==> r == JString(item.s[..m] + "...")
    ensures item.JList? || item.Scalar? ==> r == item
    ensures item.JObject? <==> r.JObject?
    decreases item, 1
  {
    match item
    case JObject(entries) => JObject(TruncateEntries(entries, m))
    case JString(s) => if |s| > m then JString(s[..m] + "...") else item
    case _ => item
  }

  /** A dict value: long strings are truncated around a marker, objects
      recursively, lists item by item, anything else is kept. */
  function TruncateValue(value: JsonValue, m: nat): (r: JsonValue)
    ensures value.JString? && |value.s| <= m ==> r == value
    ensures value.JString? && |value.s| > m ==> r == JString(TruncateString(value.s, m))
    ensures value.Scalar? ==> r == value
    ensures value.JObject? <==> r.JObject?
    ensures value.JList? <==> r.JList?
    ensures value.JList? ==> |r.items| == |value.items|
    decreases value, 1
  {
    match value
    case JString(s) => if |s| > m then JString(TruncateString(s, m)) else value
    case JObject(entries) => JObject(TruncateEntries(entries, m))
    case JList(items) => JList(TruncateItems(items, m))
    case Scalar(_) => value
  }

  function TruncateItems(items: seq<JsonValue>, m: nat): (r: seq<JsonValue>)
    ensures |r| == |items| && forall i :: 0 <= i < |items| ==> r[i] == TruncateItem(items[i], m)
    decreases JList(items), 0
  {
    seq(|items|, i requires 0 <= i < |items| => TruncateItem(items[i], m))
  }

  /** `_truncate_large_values` on the entries of a dict: every key is kept,
      in order, and each value is truncated on its own. */
  function TruncateEntries(entries: seq<(string, JsonValue)>, m: nat): (r: seq<(string, JsonValue)>)
    ensures |r| == |entries|
    ensures forall i :: 0 <= i < |entries| ==> r[i].0 == entries[i].0
    ensures forall i :: 0 <= i < |entries| ==> r[i].1 == TruncateValue(entries[i].1, m)
    decreases JObject(entries), 0
  {
    seq(|entries|, i requires 0 <= i < |entries| => (entries[i].0, TruncateValue(entries[i].1, m)))
  }

  /** Whether any string, at any depth, is longer than `m`. */
  predicate HasLongString(v: JsonValue, m: nat)
    decreases v
  {
    match v
    case JString(s) => |s| > m
    case JObject(entries) => exists i :: 0 <= i < |entries| && HasLongString(entries[i].1, m)
    case JList(items) => exists i :: 0 <= i < |items| && HasLongString(items[i], m)
    case Scalar(_) => false
  }

  /** A value without long strings is left exactly as it is. */
  lemma {:induction false} TruncateValueKeepsShort(v: JsonValue, m: nat)
    requires !HasLongString(v, m)
    ensures TruncateValue(v, m) == v
    decreases v, 1
  {
    match v
    case JObject(entries) =>
      TruncateEntriesKeepsShort(entries, m);
    case JList(items) =>
      TruncateItemsKeepsShort(items, m);
    case _ =>
  }

  lemma {:induction false} TruncateEntriesKeepsShort(entries: seq<(string, JsonValue)>, m: nat)
    requires forall i :: 0 <= i < |entries| ==> !HasLongString(entries[i].1, m)
    ensures TruncateEntries(entries, m) == entries
    decreases JObject(entries), 0
  {
    forall i | 0 <= i < |entries|
      ensures TruncateValue(entries[i].1, m) == entries[i].1
    {
      TruncateValueKeepsShort(entries[i].1, m);
    }
  }

  lemma {:induction false} TruncateItemsKeepsShort(items: seq<JsonValue>, m: nat)
    requires forall i :: 0 <= i < |items| ==> !HasLongString(items[i], m)
    ensures TruncateItems(items, m) == items
    decreases JList(items), 0
  {
    forall i | 0 <= i < |items|
      ensures TruncateItem(items[i], m) == items[i]
    {
      if items[i].JObject? {
        TruncateEntriesKeepsShort(items[i].entries, m);
      }
    }
  }

  /** `_truncate_large_values`: fills a fresh dict key by key, recursing
      into nested dicts, rebuilding lists item by item. */
  method TruncateLargeValues(entries: seq<(string, JsonValue)>, m: nat)
    returns (result: seq<(string, JsonValue)>)
    ensures result == TruncateEntries(entries, m)
    decreases JObject(entries), 0
  {
    result := [];
    for i := 0 to |entries|
      invariant result == TruncateEntries(entries, m)[..i]
    {
      var key, value := entries[i].0, entries[i].1;
      var newValue: JsonValue;
      if value.JString? && |value.s| > m {
        newValue := JString(TruncateString(value.s, m));
      } else if value.JObject? {
        var nested := TruncateLargeValues(value.entries, m);
        newValue := JObject(nested);
      } else if value.JList? {
        var items := TruncateListItems(value.items, m);
        newValue := JList(items);
      } else {
        newValue := value;
      }
      result := result + [(key, newValue)];
    }
  }

  /** The list comprehension of `_truncate_large_values`. */
  method TruncateListItems(items: seq<JsonValue>, m: nat) returns (result: seq<JsonValue>)
    ensures result == TruncateItems(items, m)
    decreases JList(items), 0
  {
    result := [];
    for i := 0 to |items|
      invariant result == TruncateItems(items, m)[..i]
    {
      var item := items[i];
      var newItem: JsonValue;
      if item.JObject? {
        var nested := TruncateLargeValues(item.entries, m);
        newItem := JObject(nested);
      } else if item.JString? && |item.s| > m {
        newItem := JString(item.s[..m] + "...");
      } else {
        newItem := item;
      }
      result := result + [newItem];
    }
  }

  // ---------------------------------------------------------------------
  // The serialisation guard

  function TooLargeMessage(length: nat, maxLength: nat): string {
    "JSON output too large: " + NatToString(length) + " characters (limit: " + NatToString(maxLength)
    + "). Consider breaking large content into smaller chunks."
  }

  /** What `safe_json_dumps` serialises: a dict with its values truncated
      to a tenth of the limit, anything else as it is. */
  function Prepared(obj: JsonValue, maxLength: nat): (r: JsonValue)
    ensures obj.JObject? <==> r.JObject?
    ensures !obj.JObject? ==> r == obj
    ensures obj.JObject? ==>
      && |r.entries| == |obj.entries|
      && forall i :: 0 <= i < |obj.entries| ==>
        r.entries[i].0 == obj.entries[i].0 && r.entries[i].1 == TruncateValue(obj.entries[i].1, maxLength / 10)
  {
    if obj.JObject? then JObject(TruncateEntries(obj.entries, maxLength / 10)) else obj
  }

  /** `safe_json_dumps`, with `json.dumps` as the parameter `dumps`: the
      serialised text when it fits `max_length`, an error otherwise. */
  function SafeJsonDumps(obj: JsonValue, maxLength: nat, dumps: JsonValue -> string): (r: Result<string>)
    ensures r.Ok? <==> |dumps(Prepared(obj, maxLength))| <= maxLength
    ensures r.Ok? ==> r.value == dumps(Prepared(obj, maxLength)) && |r.value| <= maxLength
    ensures r.Err? ==> r.error == TooLargeMessage(|dumps(Prepared(obj, maxLength))|, maxLength)
  {
    var text := dumps(Prepared(obj, maxLength));
    if |text| > maxLength then Err(TooLargeMessage(|text|, maxLength)) else Ok(text)
  }

  /** A dict whose strings all fit a tenth of the limit is serialised unchanged. */
  lemma SafeJsonDumpsKeepsSmallDicts(entries: seq<(string, JsonValue)>, maxLength: nat)
    requires forall i :: 0 <= i < |entries| ==> !HasLongString(entries[i].1, maxLength / 10)
    ensures Prepared(JObject(entries), maxLength) == JObject(entries)
  {
    TruncateEntriesKeepsShort(entries, maxLength / 10);
  }

  // ---------------------------------------------------------------------
  // Parse-error diagnostics

  /** The fields of a `JSONDecodeError`. */
  datatype DecodeError = DecodeError(msg: string, lineno: int, colno: int, pos: int)

  /** `str(e)` of a `JSONDecodeError`. */
  function ErrorText(e: DecodeError): string {
    e.msg + ": line " + IntToString(e.lineno) + " column " + IntToString(e.colno)
    + " (char " + IntToString(e.pos) + ")"
  }

  const SUGGESTION := "Suggestion: For large content, consider chunking or using file references"

  /** A context line over 100 characters keeps its first and last 50 around " ... ". */
  function ClipLine(line: string): (r: string)
    ensures |line| <= 100 ==> r == line
    ensures |line| > 100 ==> |r| == 105 && r[..50] == line[..50] && r[55..] == line[|line| - 50..]
  {
    if |line| > 100 then line[..50] + " ... " + line[|line| - 50..] else line
  }

  /** First and last line numbers (1-based) of the context around `lineno`. */
  function ContextStart(lineno: int): int {
    MaxInt(1, lineno - 2)
  }

  function ContextEnd(lines: seq<string>, lineno: int): int {
    MinInt(|lines|, lineno + 2)
  }

  const ERROR_MARK := " >>> "
  const PLAIN_MARK := "     "

  /** `f"{marker}Line {i:3d}: {line}"`: the error line carries the arrow
      marker, every other line five spaces. */
  function ContextLine(lines: seq<string>, i: int, lineno: int): (r: string)
    requires 1 <= i <= |lines|
    ensures |r| >= 5 && r[..5] == (if i == lineno then ERROR_MARK else PLAIN_MARK)
  {
    (if i == lineno then ERROR_MARK else PLAIN_MARK)
    + "Line " + PadLeft(NatToString(i), 3) + ": " + ClipLine(lines[i - 1])
  }

  /** The context lines numbered `lo` up to, not including, `hi`. */
  function ContextLines(lines: seq<string>, lineno: int, lo: int, hi: int): (r: seq<string>)
    requires 1 <= lo && hi <= |lines| + 1
    ensures |r| == (if hi <= lo then 0 else hi - lo)
    ensures forall i {:trigger ContextLine(lines, i, lineno)} :: lo <= i < hi ==> r[i - lo] == ContextLine(lines, i, lineno)
    decreases hi - lo
  {
    if hi <= lo then []
    else
      var prev := ContextLines(lines, lineno, lo, hi - 1);
      var r := prev + [ContextLine(lines, hi - 1, lineno)];
      assert forall i {:trigger ContextLine(lines, i, lineno)} :: lo <= i < hi ==> r[i - lo] == ContextLine(lines, i, lineno) by {
        forall i | lo <= i < hi
          ensures r[i - lo] == ContextLine(lines, i, lineno)
        {
          if i < hi - 1 {
            assert r[i - lo] == prev[i - lo];
          }
        }
      }
      r
  }

  /** The "Context:" block: shown only for a line number inside the text. */
  function ContextBlock(lines: seq<string>, lineno: int): seq<string> {
    if 1 <= lineno <= |lines| then
      ["Context:"] + ContextLines(lines, lineno, ContextStart(lineno), ContextEnd(lines, lineno) + 1)
    else []
  }

  /** The context shows the error line and up to two lines either side,
      clipped to the text, and marks the error line and no other. */
  lemma ContextWindow(lines: seq<string>, lineno: int)
    ensures !(1 <= lineno <= |lines|) ==> ContextBlock(lines, lineno) == []
    ensures 1 <= lineno <= |lines| ==>
      var block := ContextBlock(lines, lineno);
      var start := ContextStart(lineno);
      && |block| == 1 + ContextEnd(lines, lineno) - start + 1 <= 6
      && start <= lineno <= ContextEnd(lines, lineno)
      && forall k :: 1 <= k < |block| ==>
           |block[k]| >= 5 && (block[k][..5] == ERROR_MARK <==> start + k - 1 == lineno)
  {
    if 1 <= lineno <= |lines| {
      var block := ContextBlock(lines, lineno);
      var start := ContextStart(lineno);
      forall k | 1 <= k < |block|
        ensures |block[k]| >= 5 && (block[k][..5] == ERROR_MARK <==> start + k - 1 == lineno)
      {
        assert block[k] == ContextLine(lines, start + k - 1, lineno);
      }
    }
  }

  /** The issues `_analyze_json_error` reports about the raw text. */
  function Issues(s: string): (r: seq<string>)
    ensures "Unmatched quotes" in r <==> CountChar(s, '"') % 2 != 0
    ensures r == [] <==>
      && CountChar(s, '"') % 2 == 0
      && CountChar(s, '{') == CountChar(s, '}')
      && CountChar(s, '[') == CountChar(s, ']')
      && CountPair(s, '\\', 'n') <= 100
    ensures |r| <= 4
  {
    (if CountChar(s, '"') % 2 != 0 then ["Unmatched quotes"] else [])
    + (if CountChar(s, '{') != CountChar(s, '}') then
         ["Unmatched braces: " + NatToString(CountChar(s, '{')) + " vs " + NatToString(CountChar(s, '}'))]
       else [])
    + (if CountChar(s, '[') != CountChar(s, ']') then
         ["Unmatched brackets: " + NatToString(CountChar(s, '[')) + " vs " + NatToString(CountChar(s, ']'))]
       else [])
    + (if CountPair(s, '\\', 'n') > 100 then
         ["Many escaped newlines: " + NatToString(CountPair(s, '\\', 'n'))]
       else [])
  }

  /** The first three report lines: the error, its position, the text length. */
  function ErrorHead(s: string, e: DecodeError): seq<string> {
    ["Error: " + e.msg,
     "Position: line " + IntToString(e.lineno) + ", column " + IntToString(e.colno)
       + " (char " + IntToString(e.pos) + ")",
     "Total length: " + GroupThousands(|s|) + " characters"]
  }

  function IssuesLine(issues: seq<string>): seq<string> {
    if |issues| > 0 then ["Potential issues: " + Join(issues, ", ")] else []
  }

  /** The report lines: the error, its position, the text length, the
      context, the issues and the closing suggestion. */
  function Details(s: string, e: DecodeError): seq<string> {
    ErrorHead(s, e) + ContextBlock(Split(s, '\n'), e.lineno) + IssuesLine(Issues(s)) + [SUGGESTION]
  }

  /** The report opens with the error line and the two position lines,
      then the context block, one issues line exactly when there are
      issues, and the suggestion last. */
  lemma DetailsLayout(s: string, e: DecodeError)
    ensures var r := Details(s, e);
      var block := ContextBlock(Split(s, '\n'), e.lineno);
      && |r| == 4 + |block| + (if Issues(s) == [] then 0 else 1)
      && r[0] == "Error: " + e.msg
      && r[3..3 + |block|] == block
      && (Issues(s) != [] ==> r[3 + |block|] == "Potential issues: " + Join(Issues(s), ", "))
      && r[|r| - 1] == SUGGESTION
  {
    var block := ContextBlock(Split(s, '\n'), e.lineno);
    assert (ErrorHead(s, e) + block + IssuesLine(Issues(s)) + [SUGGESTION])[3..3 + |block|] == block;
  }

  /** The context part of `_analyze_json_error`: the numbered lines
      around the error line, appended one at a time. */
  method CollectContext(lines: seq<string>, lineno: int) returns (block: seq<string>)
    ensures block == ContextBlock(lines, lineno)
  {
    block := [];
    if 1 <= lineno <= |lines| {
      var start := MaxInt(1, lineno - 2);
      var end := MinInt(|lines|, lineno + 2);
      block := block + ["Context:"];
      for i := start to end + 1
        invariant block == ["Context:"] + ContextLines(lines, lineno, start, i)
      {
        var line := ContextLine(lines, i, lineno);
        assert ContextLines(lines, lineno, start, i + 1) == ContextLines(lines, lineno, start, i) + [line];
        assert block + [line] == ["Context:"] + (ContextLines(lines, lineno, start, i) + [line]);
        block := block + [line];
      }
    }
  }

  /** The issue checks of `_analyze_json_error`, in their order. */
  method CollectIssues(s: string) returns (issues: seq<string>)
    ensures issues == Issues(s)
  {
    issues := [];
    if CountChar(s, '"') % 2 != 0 {
      issues := issues + ["Unmatched quotes"];
    }
    if CountChar(s, '{') != CountChar(s, '}') {
      issues := issues + ["Unmatched braces: " + NatToString(CountChar(s, '{')) + " vs " + NatToString(CountChar(s, '}'))];
    }
    if CountChar(s, '[') != CountChar(s, ']') {
      issues := issues + ["Unmatched brackets: " + NatToString(CountChar(s, '[')) + " vs " + NatToString(CountChar(s, ']'))];
    }
    if CountPair(s, '\\', 'n') > 0 && CountPair(s, '\\', 'n') > 100 {
      issues := issues + ["Many escaped newlines: " + NatToString(CountPair(s, '\\', 'n'))];
    }
  }

  /** `_analyze_json_error`: the report lines joined by newlines. */
  method AnalyzeJsonError(s: string, e: DecodeError) returns (report: string)
    ensures report == Join(Details(s, e), "\n")
  {
    var lines := Split(s, '\n');
    var details := ["Error: " + e.msg,
                    "Position: line " + IntToString(e.lineno) + ", column " + IntToString(e.colno)
                      + " (char " + IntToString(e.pos) + ")",
                    "Total length: " + GroupThousands(|s|) + " characters"];
    var context := CollectContext(lines, e.lineno);
    details := details + context;
    var issues := CollectIssues(s);
    if |issues| > 0 {
      details := details + ["Potential issues: " + Join(issues, ", ")];
    }
    details := details + [SUGGESTION];
    assert details == Details(s, e);
    report := Join(details, "\n");
  }

  lemma {:induction false} JoinEndsWithLast(parts: seq<string>, sep: string)
    requires |parts| > 0
    ensures |Join(parts, sep)| >= |parts[|parts| - 1]|
    ensures Join(parts, sep)[|Join(parts, sep)| - |parts[|parts| - 1]|..] == parts[|parts| - 1]
  {
    if |parts| > 1 {
      JoinEndsWithLast(parts[1..], sep);
    }
  }

  lemma {:induction false} JoinStartsWithFirst(parts: seq<string>, sep: string)
    requires |parts| > 0
    ensures |Join(parts, sep)| >= |parts[0]| && Join(parts, sep)[..|parts[0]|] == parts[0]
  {
  }

  /** The report always opens with the error message and always ends with
      the suggestion line. */
  lemma ReportFrame(s: string, e: DecodeError)
    ensures var r := Join(Details(s, e), "\n");
      |r| >= |SUGGESTION| && r[|r| - |SUGGESTION|..] == SUGGESTION
      && r[..|"Error: " + e.msg|] == "Error: " + e.msg
  {
    JoinEndsWithLast(Details(s, e), "\n");
    JoinStartsWithFirst(Details(s, e), "\n");
  }

  // ---------------------------------------------------------------------
  // Tool-argument validation

  /** What `json.loads` made of the argument text. */
  datatype ParseOutcome = Parsed(value: JsonValue) | DecodeFailed(error: DecodeError)

  /** The three pre-check issues, each with its own opening word. */
  function SizeIssue(args: string): string {
    "Arguments very large: " + GroupThousands(|args|) + " characters"
  }

  function NewlineIssue(args: string): string {
    "Many newlines: " + NatToString(CountChar(args, '\n')) + " found"
  }

  function SyntaxIssue(e: DecodeError): string {
    "JSON syntax error: " + e.msg
  }

  /** More than 500000 characters (500 KB). */
  predicate TooLarge(args: string) {
    |args| > 500000
  }

  /** More than 1000 newlines. */
  predicate TooManyNewlines(args: string) {
    CountChar(args, '\n') > 1000
  }

  /** A decode error the pre-checks treat as an obvious structural problem. */
  predicate StructuralError(e: DecodeError) {
    Contains(ErrorText(e), "Expecting ',' delimiter") || Contains(ErrorText(e), "Unterminated string")
  }

  /** The pre-validation issues, in the order they are checked. */
  function PreValidationIssues(args: string, parse: ParseOutcome): (r: seq<string>)
    ensures |r| <= 3
  {
    (if TooLarge(args) then [SizeIssue(args)] else [])
    + (if TooManyNewlines(args) then [NewlineIssue(args)] else [])
    + (if parse.DecodeFailed? && StructuralError(parse.error) then [SyntaxIssue(parse.error)] else [])
  }

  /** Each pre-check issue is listed exactly when its condition holds, and
      nothing else is listed. */
  lemma PreValidationIssuesExact(args: string, parse: ParseOutcome)
    ensures var r := PreValidationIssues(args, parse);
      && |r| == (if TooLarge(args) then 1 else 0) + (if TooManyNewlines(args) then 1 else 0)
                + (if parse.DecodeFailed? && StructuralError(parse.error) then 1 else 0)
      && (SizeIssue(args) in r <==> TooLarge(args))
      && (NewlineIssue(args) in r <==> TooManyNewlines(args))
      && (parse.DecodeFailed? ==> (SyntaxIssue(parse.error) in r <==> StructuralError(parse.error)))
  {
    assert SizeIssue(args)[0] == 'A' && NewlineIssue(args)[0] == 'M';
    assert parse.DecodeFailed? ==> SyntaxIssue(parse.error)[0] == 'J';
  }

  /** Arguments that parse, within both size limits, raise no pre-check issue. */
  lemma CleanArgumentsPassPreValidation(args: string, parse: ParseOutcome)
    requires parse.Parsed? && !TooLarge(args) && !TooManyNewlines(args)
    ensures PreValidationIssues(args, parse) == []
  {
    PreValidationIssuesExact(args, parse);
  }

  function IssueList(issues: seq<string>): (r: seq<string>)
    ensures |r| == |issues| && forall k :: 0 <= k < |issues| ==> r[k] == "  - " + issues[k]
  {
    seq(|issues|, k requires 0 <= k < |issues| => "  - " + issues[k])
  }

  function PreValidationMessage(toolName: string, args: string, issues: seq<string>): string {
    "Tool '" + toolName + "' arguments pre-validation failed:\n" + Join(IssueList(issues), "\n")
    + "\nArguments preview: " + Take(args, 200) + "..."
  }

  function EmptyMessage(toolName: string): string {
    "Empty arguments for tool '" + toolName + "'"
  }

  /** The message `safe_json_loads` raises for a parse error: the
      optional context in parentheses, then the diagnostic report. */
  function ParseFailedMessage(context: string, s: string, e: DecodeError): string {
    ParseFailedHead(context) + Join(Details(s, e), "\n")
  }

  function ParseFailedHead(context: string): string {
    "JSON parsing failed" + (if context != "" then " (" + context + ")" else "") + ":\n"
  }

  /** `safe_json_loads`, with the outcome of `json.loads` as the input `parse`. */
  method SafeJsonLoads(s: string, context: string, parse: ParseOutcome) returns (r: Result<JsonValue>)
    ensures parse.Parsed? ==> r == Ok(parse.value)
    ensures parse.DecodeFailed? ==> r == Err(ParseFailedMessage(context, s, parse.error))
  {
    match parse
    case Parsed(v) =>
      r := Ok(v);
    case DecodeFailed(e) =>
      var details := AnalyzeJsonError(s, e);
      r := Err(ParseFailedHead(context) + details);
  }

  /** Text put in front of a report keeps the report's head inside it and its tail at the end. */
  lemma PrefixKeepsFrame(prefix: string, report: string, head: string, tail: string)
    requires |report| >= |head| && report[..|head|] == head
    requires |report| >= |tail| && report[|report| - |tail|..] == tail
    ensures var msg := prefix + report;
      |msg| >= |tail| && msg[|msg| - |tail|..] == tail && Contains(msg, head)
  {
    var msg := prefix + report;
    assert msg[|prefix|..|prefix| + |head|] == report[..|head|];
    ContainsAt(msg, head, |prefix|);
    assert msg[|msg| - |tail|..] == report[|report| - |tail|..];
  }

  /** Report lines that open with `first` and close with the suggestion
      keep both inside any text put in front of their join. */
  lemma HeadedReportFrame(head: string, lines: seq<string>, first: string)
    requires |lines| > 0 && lines[0] == first && lines[|lines| - 1] == SUGGESTION
    ensures var msg := head + Join(lines, "\n");
      |msg| >= |SUGGESTION| && msg[|msg| - |SUGGESTION|..] == SUGGESTION && Contains(msg, first)
  {
    JoinEndsWithLast(lines, "\n");
    JoinStartsWithFirst(lines, "\n");
    PrefixKeepsFrame(head, Join(lines, "\n"), first, SUGGESTION);
  }

  /** A parse failure always reports the error message and ends with the suggestion. */
  lemma ParseFailedMessageFrame(context: string, s: string, e: DecodeError)
    ensures var msg := ParseFailedMessage(context, s, e);
      |msg| >= |SUGGESTION| && msg[|msg| - |SUGGESTION|..] == SUGGESTION
      && Contains(msg, "Error: " + e.msg)
  {
    var lines := Details(s, e);
    DetailsLayout(s, e);
    HeadedReportFrame(ParseFailedHead(context), lines, "Error: " + e.msg);
  }

  function ToolContext(toolName: string): string {
    "tool '" + toolName + "' arguments"
  }

  /** `validate_tool_arguments`: blank arguments fail first; then every
      pre-check issue is collected and any issue fails with all of them;
      otherwise the parse result, or the parse-error report. */
  method ValidateToolArguments(args: string, toolName: string, parse: ParseOutcome)
    returns (r: Result<JsonValue>)
    ensures IsBlank(args) ==> r == Err(EmptyMessage(toolName))
    ensures !IsBlank(args) && PreValidationIssues(args, parse) != [] ==>
      r == Err(PreValidationMessage(toolName, args, PreValidationIssues(args, parse)))
    ensures !IsBlank(args) && parse.Parsed? && !TooLarge(args) && !TooManyNewlines(args) ==>
      r == Ok(parse.value)
    ensures !IsBlank(args) && PreValidationIssues(args, parse) == [] ==>
      r == match parse
           case Parsed(v) => Ok(v)
           case DecodeFailed(e) => Err(ParseFailedMessage(ToolContext(toolName), args, e))
  {
    if IsBlank(args) {
      return Err(EmptyMessage(toolName));
    }
    var issues: seq<string> := [];
    if TooLarge(args) {
      issues := issues + [SizeIssue(args)];
    }
    if TooManyNewlines(args) {
      issues := issues + [NewlineIssue(args)];
    }
    if parse.DecodeFailed? {
      var text := ErrorText(parse.error);
      if Contains(text, "Expecting ',' delimiter") || Contains(text, "Unterminated string") {
        issues := issues + [SyntaxIssue(parse.error)];
      }
    }
    assert issues == PreValidationIssues(args, parse);
    if |issues| > 0 {
      return Err(PreValidationMessage(toolName, args, issues));
    }
    r := SafeJsonLoads(args, ToolContext(toolName), parse);
  }

  /** A decode error whose message starts with "Unterminated string" is
      caught by the pre-checks, whatever the size of the arguments. */
  lemma UnterminatedStringIsPreValidationIssue(args: string, e: DecodeError)
    requires |e.msg| >= 19 && e.msg[..19] == "Unterminated string"
    ensures SyntaxIssue(e) in PreValidationIssues(args, DecodeFailed(e))
  {
    assert ErrorText(e)[..19] == "Unterminated string";
    ContainsAt(ErrorText(e), "Unterminated string", 0);
  }

  /** Every pre-check issue is listed in the failure message, each on its own line. */
  lemma PreValidationListsAll(toolName: string, args: string, issues: seq<string>, k: int)
    requires 0 <= k < |issues|
    ensures Contains(PreValidationMessage(toolName, args, issues), "  - " + issues[k])
  {
    var list := IssueList(issues);
    JoinContainsPart(list, "\n", k);
    var head := "Tool '" + toolName + "' arguments pre-validation failed:\n";
    var tail := "\nArguments preview: " + Take(args, 200) + "...";
    var msg := PreValidationMessage(toolName, args, issues);
    assert msg == head + Join(list, "\n") + tail;
    assert msg[|head|..|head| + |Join(list, "\n")|] == Join(list, "\n");
    ContainsAt(msg, Join(list, "\n"), |head|);
    ContainsTransitive(msg, Join(list, "\n"), list[k]);
  }

  lemma {:induction false} JoinContainsPart(parts: seq<string>, sep: string, k: int)
    requires 0 <= k < |parts|
    ensures Contains(Join(parts, sep), parts[k])
  {
    var j := Join(parts, sep);
    if |parts| == 1 {
      ContainsAt(j, parts[0], 0);
    } else if k == 0 {
      assert j[..|parts[0]|] == parts[0];
      ContainsAt(j, parts[0], 0);
    } else {
      JoinContainsPart(parts[1..], sep, k - 1);
      var rest := Join(parts[1..], sep);
      var i := ContainsWitness(rest, parts[k]);
      var off := |parts[0]| + |sep|;
      assert j == parts[0] + sep + rest;
      assert j[off + i..off + i + |parts[k]|] == rest[i..i + |parts[k]|];
      ContainsAt(j, parts[k], off + i);
    }
  }
}

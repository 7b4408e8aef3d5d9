/** Reading one completion response: stream events, whole documents, and their telemetry. */
module LlmResponse {
  import opened Prelude
  import opened PythonText

  /** A value of Python's JSON reader, which also reads `Infinity`, `NaN` and literals that overflow to them. */
  datatype Json =
    | Null
    | Bool(b: bool)
    | Number(value: real)
    | Infinite
    | NotANumber
    | Text(text: string)
    | List(items: seq<Json>)
    | Object(fields: map<string, Json>)

  /** Reading JSON: a document, a JSONDecodeError, or another exception (over-long integers, over-deep nesting). */
  datatype Parsed = Document(json: Json) | NotJson | Breaks

  /**
   * Outside the model: the JSON reader, `str` of a value (None if it raises, as on over-deep nesting), `int` of a
   * text, and the clean-up of thinking text.
   */
  datatype Python = Python(
    parse: string -> Parsed, str: Json -> Option<string>, integer: string -> Option<int>, clean: string -> string)

  datatype ErrorKind =
    | ContextLengthExceeded | Http4xx | Http5xx | HttpError | Connection | Timeout
    | StreamInterrupted | InvalidResponse | EmptyResponse | ReasoningBudgetExhausted

  /** How an attempt ends; `Escaped` is an exception that no handler of the retry loop catches. */
  datatype End =
    | Content(text: string) | Malformed | Escaped | HttpStatus(kind: ErrorKind) | NoConnection | TimeOut | Interrupted

  /** A decoded, stripped line: `Event` is what follows `data:`. */
  datatype Line = Plain(raw: string) | Event(raw: string, data: string)

  /** How the connection stops giving lines; `Crashed` is an exception outside the ones the loop handles. */
  datatype Stop = EndOfStream | TimedOut | Broken | Crashed

  // ---- Python values ----

  predicate Truthy(j: Json) {
    match j
    case Null => false
    case Bool(b) => b
    case Number(n) => n != 0.0
    case Text(s) => s != ""
    case List(items) => items != []
    case Object(fields) => fields != map[]
    case _ => true
  }

  /** An entry of an object, null if it is absent. */
  function Entry(fields: map<string, Json>, key: string): Json {
    if key in fields then fields[key] else Null
  }

  /** `str(value or "")`. */
  function TextOf(py: Python, j: Json): Option<string> {
    if Truthy(j) then py.str(j) else Some("")
  }

  // ---- Telemetry ----

  /** Token counts as the provider sent them, null if never sent, and the finish reason. */
  datatype Usage = Usage(prompt: Json, completion: Json, reasoning: Json, finish: string)

  const NO_USAGE := Usage(Null, Null, Null, "")

  const SAFE_FINISH_REASONS := {
    "stop", "length", "content_filter", "tool_calls", "function_call", "insufficient_system_resource"}

  /** What `_usage_int` makes of a count: `int` of an infinite number raises an OverflowError. */
  datatype Count = Missing | Known(n: int) | Overflow

  function Truncate(r: real): int {
    if r >= 0.0 then r.Floor else -((-r).Floor)
  }

  function UsageInt(py: Python, v: Json): (c: Count)
    ensures c.Overflow? <==> v.Infinite?
  {
    match v
    case Bool(b) => Known(if b then 1 else 0)
    case Number(r) => Known(Truncate(r))
    case Infinite => Overflow
    case Text(s) => (match py.integer(s) case Some(n) => Known(n) case None => Missing)
    case _ => Missing
  }

  function Newer(sent: Json, before: Json): Json {
    if sent.Null? then before else sent
  }

  function MergeUsage(u: Usage, usage: Json): Usage {
    match usage
    case Object(m) =>
      var counted := u.(prompt := Newer(Entry(m, "prompt_tokens"), u.prompt),
                        completion := Newer(Entry(m, "completion_tokens"), u.completion));
      (match Entry(m, "completion_tokens_details")
       case Object(d) => counted.(reasoning := Newer(Entry(d, "reasoning_tokens"), u.reasoning))
       case _ => counted)
    case _ => u
  }

  /** The reasoning text of a choice, whose length is counted. */
  function ReasoningContent(choice: map<string, Json>): Json {
    match Entry(choice, "delta")
    case Object(d) => Entry(d, "reasoning_content")
    case _ => (match Entry(choice, "message") case Object(m) => Entry(m, "reasoning_content") case _ => Null)
  }

  function MergeFinish(u: Usage, text: string): Usage {
    var finish := Lower(Strip(text));
    if finish == "" then u else u.(finish := if finish in SAFE_FINISH_REASONS then finish else "other")
  }

  /** The first choice, if there is one and it is an object. */
  function FirstChoice(data: map<string, Json>): Option<map<string, Json>> {
    match Entry(data, "choices")
    case List(items) => if items != [] && items[0].Object? then Some(items[0].fields) else None
    case _ => None
  }

  /** Telemetry of one document; None if printing the finish reason or the reasoning text raises. */
  function MergeTelemetry(py: Python, u: Usage, data: Json): Option<Usage> {
    if !data.Object? then Some(u)
    else
      var counted := MergeUsage(u, Entry(data.fields, "usage"));
      match FirstChoice(data.fields)
      case None => Some(counted)
      case Some(choice) =>
        match TextOf(py, Entry(choice, "finish_reason"))
        case None => None
        case Some(text) =>
          var reasoning := ReasoningContent(choice);
          if !reasoning.Null? && py.str(reasoning).None? then None else Some(MergeFinish(counted, text))
  }

  // ---- One event ----

  /** What an event holds: the value printed as content, nothing, a wrong type, or a missing key of an object. */
  datatype Found = Value(json: Json) | Nothing | WrongType | NoSuchKey

  /** `choice.get(...)` and what follows, once the choice has been taken. */
  function FindInChoice(choice: Json): Found {
    if !choice.Object? then WrongType
    else
      var delta := Entry(choice.fields, "delta");
      if Truthy(delta) && !delta.Object? then WrongType
      else if Truthy(delta) && !Entry(delta.fields, "content").Null? then Value(Entry(delta.fields, "content"))
      else
        var message := Entry(choice.fields, "message");
        if Truthy(message) && !message.Object? then WrongType
        else if Truthy(message) && !Entry(message.fields, "content").Null? then Value(Entry(message.fields, "content"))
        else Nothing
  }

  function FindContent(data: Json): Found {
    if !data.Object? then WrongType
    else
      match Entry(data.fields, "choices")
      case List(items) => if items == [] then Nothing else FindInChoice(items[0])
      case Object(fields) => if fields == map[] then Nothing else NoSuchKey
      case other => if Truthy(other) then WrongType else Nothing
  }

  /** Printing what was found. */
  function Printed(py: Python, found: Found): End {
    match found
    case Value(j) => (match py.str(j) case Some(text) => Content(text) case None => Escaped)
    case Nothing => Content("")
    case WrongType => Malformed
    case NoSuchKey => Escaped
  }

  /** The content of one event, with the telemetry after it. */
  function FromStreamEvent(py: Python, data: string, u: Usage): (r: (End, Usage))
    ensures r.0.Content? || r.0.Malformed? || r.0.Escaped?
  {
    match py.parse(data)
    case NotJson => (Malformed, u)
    case Breaks => (Escaped, u)
    case Document(j) =>
      match MergeTelemetry(py, u, j)
      case None => (Escaped, u)
      case Some(after) => (Printed(py, FindContent(j)), after)
  }

  /** The value a whole document is read for. */
  function DocumentContent(data: Json): Option<Json> {
    if !data.Object? then None
    else
      match FirstChoice(data.fields)
      case None => None
      case Some(choice) =>
        match Entry(choice, "message")
        case Object(m) => if "content" in m then Some(m["content"]) else None
        case _ => None
  }

  /** The content of a response that is one JSON document. */
  function FromJsonResponse(py: Python, raw: string, u: Usage): (r: (End, Usage))
    ensures r.0.Content? || r.0.Malformed? || r.0.Escaped?
  {
    match py.parse(raw)
    case NotJson => (Malformed, u)
    case Breaks => (Escaped, u)
    case Document(j) =>
      match DocumentContent(j)
      case None => (Malformed, u)
      case Some(content) =>
        match MergeTelemetry(py, u, j)
        case None => (Escaped, u)
        case Some(after) => (match TextOf(py, content) case None => (Escaped, after) case Some(text) => (Content(text), after))
  }

  // ---- What is read of a well-formed response ----

  /** The content that a part of a choice has, unless it is null. */
  function Said(choice: map<string, Json>, part: string): Option<Json> {
    if part in choice && choice[part].Object? && "content" in choice[part].fields && !choice[part].fields["content"].Null?
    then Some(choice[part].fields["content"]) else None
  }

  /** The part is missing, null, or an object. */
  predicate WellTyped(choice: map<string, Json>, part: string) {
    part !in choice || choice[part].Null? || choice[part].Object?
  }

  /**
   * The content of an event is what the delta of its first choice has, else what the message there has, else nothing;
   * an event without choices has none.
   */
  lemma EventContentExactly(py: Python, data: string, m: map<string, Json>, choice: map<string, Json>, u: Usage)
    requires py.parse(data) == Document(Object(m)) && !TelemetryUnprintable(py, Object(m))
    requires "choices" in m && m["choices"].List?
    requires m["choices"].items == [] || m["choices"].items[0] == Object(choice)
    ensures var content := FromStreamEvent(py, data, u).0;
      && (m["choices"].items == [] ==> content == Content(""))
      && (m["choices"].items != [] && WellTyped(choice, "delta") && WellTyped(choice, "message") ==>
            var said := if Said(choice, "delta").Some? then Said(choice, "delta") else Said(choice, "message");
            && (said.None? ==> content == Content(""))
            && (said.Some? && py.str(said.value).Some? ==> content == Content(py.str(said.value).value)))
  {
    assert MergeTelemetry(py, u, Object(m)).Some?;
  }

  /** A document is read for the message of its first choice; false, zero and empty values of it give no text. */
  lemma DocumentContentExactly(py: Python, raw: string, m: map<string, Json>, choice: map<string, Json>, u: Usage)
    requires py.parse(raw) == Document(Object(m)) && !TelemetryUnprintable(py, Object(m))
    requires "choices" in m && m["choices"].List? && m["choices"].items != [] && m["choices"].items[0] == Object(choice)
    ensures var content := FromJsonResponse(py, raw, u).0;
      if "message" in choice && choice["message"].Object? && "content" in choice["message"].fields then
        var value := choice["message"].fields["content"];
        && (Truthy(value) && py.str(value).Some? ==> content == Content(py.str(value).value))
        && (!Truthy(value) ==> content == Content(""))
      else content == Malformed
  {
    assert MergeTelemetry(py, u, Object(m)).Some?;
  }

  /** A value that was sent and is not null. */
  predicate Sent(m: map<string, Json>, key: string) {
    key in m && !m[key].Null?
  }

  /** Each count is the last one that was sent. */
  lemma CountsAreLatest(u: Usage, m: map<string, Json>)
    ensures var after := MergeUsage(u, Object(m));
      && after.prompt == (if Sent(m, "prompt_tokens") then m["prompt_tokens"] else u.prompt)
      && after.completion == (if Sent(m, "completion_tokens") then m["completion_tokens"] else u.completion)
      && after.reasoning == (
           if "completion_tokens_details" in m && m["completion_tokens_details"].Object?
              && Sent(m["completion_tokens_details"].fields, "reasoning_tokens")
           then m["completion_tokens_details"].fields["reasoning_tokens"] else u.reasoning)
      && after.finish == u.finish
  {
  }

  /** A finish reason is trimmed and lowered; unknown ones are called other, and an empty one changes nothing. */
  lemma FinishExactly(u: Usage, text: string)
    ensures var finish := Lower(Strip(text));
      var known := {"stop", "length", "content_filter", "tool_calls", "function_call", "insufficient_system_resource"};
      && (finish == "" ==> MergeFinish(u, text) == u)
      && (finish in known ==> MergeFinish(u, text) == u.(finish := finish))
      && (finish != "" && finish !in known ==> MergeFinish(u, text) == u.(finish := "other"))
  {
  }

  /** The reasoning text is the delta's, if there is a delta, and otherwise the message's. */
  lemma ReasoningExactly(choice: map<string, Json>)
    ensures var part := if "delta" in choice && choice["delta"].Object? then "delta" else "message";
      ReasoningContent(choice) ==
        if part in choice && choice[part].Object? && "reasoning_content" in choice[part].fields
        then choice[part].fields["reasoning_content"] else Null
  {
  }

  // ---- Exceptions that no handler catches ----

  /** Some text of the telemetry cannot be printed. */
  predicate TelemetryUnprintable(py: Python, data: Json) {
    data.Object? && FirstChoice(data.fields).Some?
    && var choice := FirstChoice(data.fields).value;
       || (Truthy(Entry(choice, "finish_reason")) && py.str(Entry(choice, "finish_reason")).None?)
       || (!ReasoningContent(choice).Null? && py.str(ReasoningContent(choice)).None?)
  }

  /** `choices` is a non-empty object, so that taking its element 0 is a KeyError. */
  predicate ObjectChoices(data: Json) {
    data.Object? && Entry(data.fields, "choices").Object? && Entry(data.fields, "choices").fields != map[]
  }

  /** The content found cannot be printed. */
  predicate ContentUnprintable(py: Python, data: Json) {
    FindContent(data).Value? && py.str(FindContent(data).json).None?
  }

  /**
   * An event escapes the error handling exactly when the JSON reader raises something other than a JSONDecodeError,
   * when its `choices` is a non-empty object, or when a value in it cannot be printed.
   */
  lemma EventEscapesExactly(py: Python, data: string, u: Usage)
    ensures FromStreamEvent(py, data, u).0.Escaped? <==>
      || py.parse(data).Breaks?
      || (py.parse(data).Document?
          && var j := py.parse(data).json;
             TelemetryUnprintable(py, j) || ObjectChoices(j) || ContentUnprintable(py, j))
  {
    match py.parse(data)
    case Document(j) =>
      assert MergeTelemetry(py, u, j).None? <==> TelemetryUnprintable(py, j);
      assert FindContent(j).NoSuchKey? <==> ObjectChoices(j);
    case _ =>
  }

  /** A whole document escapes exactly when the reader breaks, or it has content and something cannot be printed. */
  lemma DocumentEscapesExactly(py: Python, raw: string, u: Usage)
    ensures FromJsonResponse(py, raw, u).0.Escaped? <==>
      || py.parse(raw).Breaks?
      || (py.parse(raw).Document? && DocumentContent(py.parse(raw).json).Some?
          && (TelemetryUnprintable(py, py.parse(raw).json)
              || TextOf(py, DocumentContent(py.parse(raw).json).value).None?))
  {
    match py.parse(raw)
    case Document(j) => assert MergeTelemetry(py, u, j).None? <==> TelemetryUnprintable(py, j);
    case _ =>
  }

  /** The shortest event with a non-empty object of choices. */
  const KEYED_CHOICES := Object(map["choices" := Object(map["a" := Null])])

  /** An event whose content is some value. */
  function ContentEvent(content: Json): Json {
    Object(map["choices" := List([Object(map["delta" := Object(map["content" := content])])])])
  }

  /** One input of each kind: an integer too long or nesting too deep, keyed choices, and a value that cannot be printed. */
  lemma EachKindEscapes(py: Python, data: string, v: Json, u: Usage)
    ensures py.parse(data) == Breaks ==> FromStreamEvent(py, data, u).0.Escaped? && FromJsonResponse(py, data, u).0.Escaped?
    ensures py.parse(data) == Document(KEYED_CHOICES) ==> FromStreamEvent(py, data, u).0.Escaped?
    ensures py.parse(data) == Document(ContentEvent(v)) && !v.Null? && py.str(v).None? ==> FromStreamEvent(py, data, u).0.Escaped?
  {
    EventEscapesExactly(py, data, u);
    var keyed := KEYED_CHOICES.fields["choices"];
    assert keyed.fields["a"] == Null;
    var event := ContentEvent(v);
    var choice := event.fields["choices"].items[0];
    assert choice.fields["delta"].fields["content"] == v;
    assert "content" in choice.fields["delta"].fields && "delta" in choice.fields;
    assert FindContent(event) == FindInChoice(choice);
  }

  // ---- One response ----

  function Concat(parts: seq<string>): string {
    if parts == [] then "" else Concat(parts[..|parts| - 1]) + parts[|parts| - 1]
  }

  function NonEmpty(parts: seq<string>): (r: seq<string>)
    ensures forall p | p in r :: p != ""
    ensures Concat(r) == Concat(parts)
  {
    if parts == [] then []
    else
      var last := parts[|parts| - 1];
      var rest := NonEmpty(parts[..|parts| - 1]);
      if last == "" then rest
      else
        assert (rest + [last])[..|rest|] == rest;
        rest + [last]
  }

  function RawText(lines: seq<Line>): string {
    if lines == [] then "" else RawText(lines[..|lines| - 1]) + lines[|lines| - 1].raw
  }

  /** What reading the lines has done so far. */
  datatype Progress =
    | Reading(parts: seq<string>, usage: Usage, sawEvent: bool)
    | Done(parts: seq<string>, usage: Usage)
    | Failed(parts: seq<string>, usage: Usage, end: End)

  /** One more line. */
  function ReadLine(py: Python, before: Progress, line: Line): Progress {
    if !before.Reading? || line.Plain? then before
    else if line.data == "[DONE]" then Done(before.parts, before.usage)
    else
      var (end, usage) := FromStreamEvent(py, line.data, before.usage);
      match end
      case Content(text) => Reading(before.parts + [text], usage, true)
      case _ => Failed(before.parts, usage, end)
  }

  /** Reading line by line: parts are collected until `[DONE]`, a bad event or the last line. */
  function ReadLines(py: Python, lines: seq<Line>): Progress {
    if lines == [] then Reading([], NO_USAGE, false)
    else ReadLine(py, ReadLines(py, lines[..|lines| - 1]), lines[|lines| - 1])
  }

  /** How reading ends, once the lines have been read. */
  function Conclude(py: Python, p: Progress, raw: string, stop: Stop): (End, Usage) {
    match p
    case Failed(_, usage, end) => (end, usage)
    case Done(parts, usage) => (Content(Concat(parts)), usage)
    case Reading(parts, usage, saw) =>
      match stop
      case TimedOut => (TimeOut, usage)
      case Broken => (Interrupted, usage)
      case Crashed => (Escaped, usage)
      case EndOfStream => if saw then (Content(Concat(parts)), usage) else FromJsonResponse(py, raw, usage)
  }

  function ReadEnd(py: Python, lines: seq<Line>, stop: Stop): (End, Usage) {
    Conclude(py, ReadLines(py, lines), RawText(lines), stop)
  }

  /** The chunks handed to a listening caller. */
  function Heard(p: Progress, listening: bool): seq<string> {
    if listening then NonEmpty(p.parts) else []
  }

  lemma ReadLinesNext(py: Python, lines: seq<Line>, i: nat)
    requires i < |lines|
    ensures ReadLines(py, lines[..i + 1]) == ReadLine(py, ReadLines(py, lines[..i]), lines[i])
    ensures RawText(lines[..i + 1]) == RawText(lines[..i]) + lines[i].raw
  {
    assert lines[..i + 1][..i] == lines[..i];
  }

  lemma HeardNext(p: Progress, text: string, usage: Usage, listening: bool)
    requires p.Reading?
    ensures Heard(Reading(p.parts + [text], usage, true), listening)
         == Heard(p, listening) + if text != "" && listening then [text] else []
  {
    assert (p.parts + [text])[..|p.parts|] == p.parts;
  }

  method ReadCompletionContent(py: Python, lines: seq<Line>, stop: Stop, listening: bool)
    returns (end: End, usage: Usage, forwarded: seq<string>)
    ensures (end, usage) == ReadEnd(py, lines, stop)
    ensures forwarded == Heard(ReadLines(py, lines), listening)
  {
    var parts, raw, sawEvent := [], "", false;
    usage, forwarded := NO_USAGE, [];
    for i := 0 to |lines|
      invariant ReadLines(py, lines[..i]) == Reading(parts, usage, sawEvent) && raw == RawText(lines[..i])
      invariant forwarded == Heard(Reading(parts, usage, sawEvent), listening)
    {
      ReadLinesNext(py, lines, i);
      raw := raw + lines[i].raw;
      if lines[i].Plain? { continue; }
      if lines[i].data == "[DONE]" {
        LaterLinesIgnored(py, lines, i + 1);
        return Content(Concat(parts)), usage, forwarded;
      }
      ghost var before := Reading(parts, usage, sawEvent);
      var event := FromStreamEvent(py, lines[i].data, usage);
      end, usage := event.0, event.1;
      if !end.Content? {
        LaterLinesIgnored(py, lines, i + 1);
        return;
      }
      HeardNext(before, end.text, usage, listening);
      sawEvent := true;
      parts := parts + [end.text];
      if end.text != "" && listening { forwarded := forwarded + [end.text]; }
    }
    assert lines[..|lines|] == lines;
    match stop
    case TimedOut => end := TimeOut;
    case Broken => end := Interrupted;
    case Crashed => end := Escaped;
    case EndOfStream =>
      var whole := if sawEvent then (Content(Concat(parts)), usage) else FromJsonResponse(py, raw, usage);
      end, usage := whole.0, whole.1;
  }

  /** After `[DONE]` or a bad event nothing more is read. */
  lemma {:induction false} LaterLinesIgnored(py: Python, lines: seq<Line>, n: nat)
    requires n <= |lines| && !ReadLines(py, lines[..n]).Reading?
    ensures ReadLines(py, lines) == ReadLines(py, lines[..n])
  {
    if n < |lines| {
      assert lines[..|lines| - 1][..n] == lines[..n];
      LaterLinesIgnored(py, lines[..|lines| - 1], n);
    } else {
      assert lines[..n] == lines;
    }
  }

  /** A bad event is malformed or escapes. */
  lemma {:induction false} FailedEnds(py: Python, lines: seq<Line>)
    ensures var p := ReadLines(py, lines); p.Failed? ==> p.end.Malformed? || p.end.Escaped?
  {
    if lines != [] { FailedEnds(py, lines[..|lines| - 1]); }
  }

  /** Reading a stream to its end or to `[DONE]`, at least one event seen. */
  predicate Streamed(py: Python, lines: seq<Line>, stop: Stop) {
    match ReadLines(py, lines)
    case Done(_, _) => true
    case Reading(_, _, saw) => saw && stop.EndOfStream?
    case Failed(_, _, _) => false
  }

  /** What a listener hears of such a stream adds up to its content. */
  lemma HeardIsContent(py: Python, lines: seq<Line>, stop: Stop)
    requires Streamed(py, lines, stop)
    ensures ReadEnd(py, lines, stop).0 == Content(Concat(Heard(ReadLines(py, lines), true)))
  {
  }
}

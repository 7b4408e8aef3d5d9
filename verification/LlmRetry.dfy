/** The retry loop of one logical LLM call, with its records and forwarded chunks. */
module LlmRetry {
  import opened Prelude
  import opened LlmResponse
  import opened PythonText

  /**
   * A response that opened, to be read to some stop, or a failure to open; `tooLong` is what the error body says.
   * `OpenCrashed` is any other exception of `urlopen`, such as the ValueError of a redirect to a malformed URL or of
   * an API key that is no header value.
   */
  datatype Response =
    | Stream(lines: seq<Line>, stop: Stop)
    | HttpFailure(status: Option<int>, tooLong: bool)
    | Unreachable
    | OpenTimedOut
    | OpenBroken
    | OpenCrashed

  /** A call: whether the caller listens to chunks, whether it records, and its token budget. */
  datatype Call = Call(py: Python, listening: bool, recording: bool, maxTokens: int)

  // ---- One attempt ----

  function HttpErrorKind(status: Option<int>): ErrorKind {
    match status
    case None => HttpError
    case Some(code) => if 400 <= code < 500 then Http4xx else if 500 <= code < 600 then Http5xx else HttpError
  }

  /** What the loop sees of one attempt. */
  datatype Attempt = Attempt(end: End, deltas: seq<string>, usage: Usage)

  function TryOnce(c: Call, r: Response): Attempt {
    match r
    case Stream(lines, stop) =>
      var (end, usage) := ReadEnd(c.py, lines, stop);
      Attempt(end, Heard(ReadLines(c.py, lines), c.listening), usage)
    case HttpFailure(status, tooLong) =>
      Attempt(HttpStatus(if tooLong then ContextLengthExceeded else HttpErrorKind(status)), [], NO_USAGE)
    case Unreachable => Attempt(NoConnection, [], NO_USAGE)
    case OpenTimedOut => Attempt(TimeOut, [], NO_USAGE)
    case OpenBroken => Attempt(Interrupted, [], NO_USAGE)
    case OpenCrashed => Attempt(Escaped, [], NO_USAGE)
  }

  method Perform(c: Call, r: Response) returns (a: Attempt)
    ensures a == TryOnce(c, r)
  {
    if r.Stream? {
      var end, usage, deltas := ReadCompletionContent(c.py, r.lines, r.stop, c.listening);
      return Attempt(end, deltas, usage);
    }
    return TryOnce(c, r);
  }

  /** Worth another attempt: a transient failure that has shown the caller nothing - time-outs are not asked that. */
  predicate Retryable(c: Call, a: Attempt) {
    match a.end
    case Content(text) => c.py.clean(text) == "" && a.deltas == []
    case Malformed => a.deltas == []
    case Interrupted => a.deltas == []
    case TimeOut => true
    case NoConnection => true
    case HttpStatus(kind) => kind == Http5xx
    case Escaped => false
  }

  datatype Record = Record(ok: bool, error: Option<ErrorKind>, retryCount: nat)

  datatype Outcome = Returned(content: string) | RaisedClientError(kind: ErrorKind, retryCount: nat) | Propagated

  function EmptyKind(c: Call, u: Usage): ErrorKind {
    match UsageInt(c.py, u.reasoning)
    case Known(n) =>
      if u.finish == "length" && c.maxTokens > 0 && n * 10 >= c.maxTokens * 9 then ReasoningBudgetExhausted else EmptyResponse
    case _ => EmptyResponse
  }

  /** Recording prints the counts: an infinite one raises before the record reaches anybody. */
  predicate CountsOverflow(c: Call, u: Usage) {
    u.reasoning.Infinite? || (c.recording && (u.prompt.Infinite? || u.completion.Infinite?))
  }

  /** The last attempt ends the call by an exception that is none of the client's. */
  predicate Lost(c: Call, a: Attempt) {
    a.end.Escaped? || ((a.end.Content? || a.end.Malformed?) && CountsOverflow(c, a.usage))
  }

  /** How the call ends with its last attempt. */
  function LastOutcome(c: Call, a: Attempt, retryCount: nat): Outcome {
    if Lost(c, a) then Propagated
    else match a.end
      case Content(text) =>
        if c.py.clean(text) != "" then Returned(c.py.clean(text)) else RaisedClientError(EmptyKind(c, a.usage), retryCount)
      case Malformed => RaisedClientError(InvalidResponse, retryCount)
      case HttpStatus(kind) => RaisedClientError(kind, retryCount)
      case NoConnection => RaisedClientError(Connection, retryCount)
      case TimeOut => RaisedClientError(Timeout, retryCount)
      case Interrupted => RaisedClientError(StreamInterrupted, retryCount)
      case Escaped => Propagated
  }

  /** Exactly one record of a call that ends in a return or a client error, none of a lost one. */
  predicate Recorded(c: Call, outcome: Outcome, retryCount: nat, records: seq<Record>) {
    match outcome
    case Returned(_) => records == if c.recording then [Record(true, None, retryCount)] else []
    case RaisedClientError(kind, n) =>
      n == retryCount && records == if c.recording then [Record(false, Some(kind), retryCount)] else []
    case Propagated => records == []
  }

  // ---- The same, said of responses ----

  /** Nothing of these parts has reached the caller. */
  predicate Unheard(c: Call, parts: seq<string>) {
    !c.listening || forall t | t in parts :: t == ""
  }

  /** An answer that is blank once cleaned, and of which nothing was heard. */
  predicate BlankUnheard(c: Call, text: string, parts: seq<string>) {
    c.py.clean(text) == "" && Unheard(c, parts)
  }

  /**
   * Responses that are followed by another attempt: server errors, unless the body says that the context is too long;
   * failing connections and time-outs; and what was interrupted, malformed or blank before the caller heard of it.
   */
  predicate Repeats(c: Call, r: Response) {
    match r
    case HttpFailure(None, _) => false
    case HttpFailure(Some(code), tooLong) => !tooLong && 500 <= code < 600
    case Unreachable => true
    case OpenTimedOut => true
    case OpenBroken => true
    case OpenCrashed => false
    case Stream(lines, stop) =>
      match ReadLines(c.py, lines)
      case Failed(parts, _, end) => end.Malformed? && Unheard(c, parts)
      case Done(parts, _) => BlankUnheard(c, Concat(parts), parts)
      case Reading(parts, usage, saw) =>
        match stop
        case TimedOut => true
        case Broken => Unheard(c, parts)
        case Crashed => false
        case EndOfStream =>
          if saw then BlankUnheard(c, Concat(parts), parts)
          else
            var end := FromJsonResponse(c.py, RawText(lines), usage).0;
            (end.Malformed? && Unheard(c, parts)) || (end.Content? && BlankUnheard(c, end.text, parts))
  }

  /** How the call ends if this response is its last: for one that did not open, by its kind of error. */
  predicate EndsWith(c: Call, r: Response, retryCount: nat, outcome: Outcome) {
    match r
    case HttpFailure(_, true) => outcome == RaisedClientError(ContextLengthExceeded, retryCount)
    case HttpFailure(None, false) => outcome == RaisedClientError(HttpError, retryCount)
    case HttpFailure(Some(code), false) =>
      && (400 <= code < 500 ==> outcome == RaisedClientError(Http4xx, retryCount))
      && (500 <= code < 600 ==> outcome == RaisedClientError(Http5xx, retryCount))
      && (code < 400 || code >= 600 ==> outcome == RaisedClientError(HttpError, retryCount))
    case Unreachable => outcome == RaisedClientError(Connection, retryCount)
    case OpenTimedOut => outcome == RaisedClientError(Timeout, retryCount)
    case OpenBroken => outcome == RaisedClientError(StreamInterrupted, retryCount)
    case OpenCrashed => outcome == Propagated
    case Stream(lines, stop) => StreamEndsWith(c, ReadLines(c.py, lines), RawText(lines), stop, retryCount, outcome)
  }

  /** The same for one that opened: by an answer, by what was wrong with it, or by the stop of the connection. */
  predicate StreamEndsWith(c: Call, p: Progress, raw: string, stop: Stop, retryCount: nat, outcome: Outcome) {
    match p
    case Failed(_, usage, end) => AnswerEndsWith(c, end, usage, retryCount, outcome)
    case Done(parts, usage) => AnswerEndsWith(c, Content(Concat(parts)), usage, retryCount, outcome)
    case Reading(parts, usage, saw) =>
      match stop
      case TimedOut => outcome == RaisedClientError(Timeout, retryCount)
      case Broken => outcome == RaisedClientError(StreamInterrupted, retryCount)
      case Crashed => outcome == Propagated
      case EndOfStream =>
        var (end, total) := if saw then (Content(Concat(parts)), usage) else FromJsonResponse(c.py, raw, usage);
        AnswerEndsWith(c, end, total, retryCount, outcome)
  }

  predicate AnswerEndsWith(c: Call, end: End, u: Usage, retryCount: nat, outcome: Outcome) {
    if end.Escaped? || u.reasoning.Infinite? || (c.recording && (u.prompt.Infinite? || u.completion.Infinite?)) then
      outcome == Propagated
    else if end.Content? && c.py.clean(end.text) != "" then outcome == Returned(c.py.clean(end.text))
    else if !end.Content? then outcome == RaisedClientError(InvalidResponse, retryCount)
    else
      var used := UsageInt(c.py, u.reasoning);
      outcome == RaisedClientError(
        if u.finish == "length" && c.maxTokens > 0 && used.Known? && 10 * used.n >= 9 * c.maxTokens
        then ReasoningBudgetExhausted else EmptyResponse, retryCount)
  }

  // ---- The loop ----

  /** Chunks forwarded over a number of attempts. */
  function Forwarded(attempts: seq<Attempt>): seq<string> {
    if attempts == [] then [] else Forwarded(attempts[..|attempts| - 1]) + attempts[|attempts| - 1].deltas
  }

  /** A profile's setting, as `int` reads it. */
  datatype Setting = Unset | Whole(n: int) | Unreadable | Unbounded

  /** The number of retries; None is the OverflowError of an infinite setting. */
  function TransportMaxRetries(setting: Setting): (r: Option<nat>)
    ensures r.None? <==> setting.Unbounded?
    ensures setting.Unset? || setting.Unreadable? ==> r == Some(1)
    ensures setting.Whole? ==> r.value >= setting.n && (r.value == 0 || r.value == setting.n)
  {
    match setting
    case Unbounded => None
    case Whole(n) => Some(if n < 0 then 0 else n)
    case _ => Some(1)
  }

  /** Every attempt but the last was worth repeating. */
  predicate AllRetried(c: Call, attempts: seq<Attempt>) {
    forall i | 0 <= i < |attempts| - 1 :: Retryable(c, attempts[i])
  }

  /** The attempts are those the responses give, in order. */
  ghost predicate FromResponses(c: Call, responses: nat -> Response, attempts: seq<Attempt>) {
    forall i {:trigger TryOnce(c, responses(i))} | 0 <= i < |attempts| :: attempts[i] == TryOnce(c, responses(i))
  }

  /** Printing the counts and handing the record on; false is the OverflowError. */
  method RecordCall(c: Call, u: Usage, record: Record) returns (ok: bool, records: seq<Record>)
    ensures ok <==> !CountsOverflow(c, u)
    ensures records == if ok && c.recording then [record] else []
  {
    records := [];
    if UsageInt(c.py, u.reasoning).Overflow? { return false, []; }
    if !c.recording { return true, []; }
    if UsageInt(c.py, u.prompt).Overflow? || UsageInt(c.py, u.completion).Overflow? { return false, []; }
    return true, [record];
  }

  /** Records a failure and raises it, unless recording itself fails. */
  method Fail(c: Call, u: Usage, kind: ErrorKind, retryCount: nat) returns (outcome: Outcome, records: seq<Record>)
    ensures outcome == if CountsOverflow(c, u) then Propagated else RaisedClientError(kind, retryCount)
    ensures Recorded(c, outcome, retryCount, records)
  {
    var ok;
    ok, records := RecordCall(c, u, Record(false, Some(kind), retryCount));
    outcome := if ok then RaisedClientError(kind, retryCount) else Propagated;
  }

  /** An answer: cleaned, and either returned or treated as empty. */
  method SettleContent(c: Call, a: Attempt, retryCount: nat, maxRetries: nat)
    returns (again: bool, outcome: Outcome, records: seq<Record>)
    requires a.end.Content?
    ensures again <==> Retryable(c, a) && retryCount < maxRetries
    ensures !again ==> outcome == LastOutcome(c, a, retryCount) && Recorded(c, outcome, retryCount, records)
    ensures again ==> records == []
  {
    again, outcome, records := false, Propagated, [];
    var content := c.py.clean(a.end.text);
    if content == "" {
      if a.deltas == [] && retryCount < maxRetries { return true, outcome, records; }
      if UsageInt(c.py, a.usage.reasoning).Overflow? { return; }
      outcome, records := Fail(c, a.usage, EmptyKind(c, a.usage), retryCount);
    } else {
      var ok;
      ok, records := RecordCall(c, a.usage, Record(true, None, retryCount));
      if ok { outcome := Returned(content); }
    }
  }

  /** After a failed attempt: go round again, or record the failure and raise. */
  method Settle(c: Call, a: Attempt, retryCount: nat, maxRetries: nat)
    returns (again: bool, outcome: Outcome, records: seq<Record>)
    ensures again <==> Retryable(c, a) && retryCount < maxRetries
    ensures !again ==> outcome == LastOutcome(c, a, retryCount) && Recorded(c, outcome, retryCount, records)
    ensures again ==> records == []
  {
    again, outcome, records := false, Propagated, [];
    var deltaFired, left := a.deltas != [], retryCount < maxRetries;
    match a.end {
      case Malformed =>
        if !deltaFired && left { return true, outcome, records; }
        outcome, records := Fail(c, a.usage, InvalidResponse, retryCount);
      case Escaped =>
      case HttpStatus(kind) =>
        if kind == Http5xx && left { return true, outcome, records; }
        outcome, records := Fail(c, NO_USAGE, kind, retryCount);
      case NoConnection =>
        if left { return true, outcome, records; }
        outcome, records := Fail(c, NO_USAGE, Connection, retryCount);
      case TimeOut =>
        if left { return true, outcome, records; }
        outcome, records := Fail(c, NO_USAGE, Timeout, retryCount);
      case Interrupted =>
        if !deltaFired && left { return true, outcome, records; }
        outcome, records := Fail(c, NO_USAGE, StreamInterrupted, retryCount);
      case Content(_) => again, outcome, records := SettleContent(c, a, retryCount, maxRetries);
    }
  }

  ghost predicate AllRetryable(c: Call, attempts: seq<Attempt>) {
    forall a | a in attempts :: Retryable(c, a)
  }

  lemma RetriedBefore(c: Call, attempts: seq<Attempt>, a: Attempt)
    requires AllRetryable(c, attempts)
    ensures AllRetried(c, attempts + [a])
  {
  }

  lemma RetryableNext(c: Call, attempts: seq<Attempt>)
    requires attempts != [] && AllRetried(c, attempts) && Retryable(c, attempts[|attempts| - 1])
    ensures AllRetryable(c, attempts)
  {
  }

  lemma ForwardedNext(attempts: seq<Attempt>, a: Attempt)
    ensures Forwarded(attempts + [a]) == Forwarded(attempts) + a.deltas
  {
    assert (attempts + [a])[..|attempts|] == attempts;
  }

  lemma AttemptNext(c: Call, responses: nat -> Response, attempts: seq<Attempt>)
    requires FromResponses(c, responses, attempts)
    ensures FromResponses(c, responses, attempts + [TryOnce(c, responses(|attempts|))])
  {
  }

  lemma {:induction false} NonEmptyUnheard(parts: seq<string>)
    ensures NonEmpty(parts) == [] <==> forall t | t in parts :: t == ""
  {
    hide Concat;
    if parts != [] {
      var init, last := parts[..|parts| - 1], parts[|parts| - 1];
      NonEmptyUnheard(init);
      assert parts == init + [last];
      assert last in parts && forall t | t in init :: t in parts;
    }
  }

  /** An attempt is worth repeating exactly for those responses. */
  lemma RepeatsExactly(c: Call, r: Response)
    ensures Retryable(c, TryOnce(c, r)) <==> Repeats(c, r)
  {
    if r.Stream? {
      NonEmptyUnheard(ReadLines(c.py, r.lines).parts);
      FailedEnds(c.py, r.lines);
    }
  }

  /** And the last one ends the call as those say. */
  lemma EndsExactly(c: Call, r: Response, retryCount: nat)
    ensures EndsWith(c, r, retryCount, LastOutcome(c, TryOnce(c, r), retryCount))
  {
    if r.Stream? { FailedEnds(c.py, r.lines); }
  }

  lemma AllRepeat(c: Call, responses: nat -> Response, attempts: seq<Attempt>)
    requires FromResponses(c, responses, attempts) && AllRetried(c, attempts)
    ensures forall i | 0 <= i < |attempts| - 1 :: Repeats(c, responses(i))
  {
    forall i | 0 <= i < |attempts| - 1 ensures Repeats(c, responses(i)) {
      assert attempts[i] == TryOnce(c, responses(i));
      RepeatsExactly(c, responses(i));
    }
  }

  /**
   * One call against any sequence of responses: it stops at the first attempt that is not worth repeating or
   * uses up the retries, and says so in one record unless the call is lost.
   */
  method Complete(c: Call, maxRetries: nat, responses: nat -> Response)
    returns (outcome: Outcome, records: seq<Record>, forwarded: seq<string>, attempts: seq<Attempt>)
    ensures 1 <= |attempts| <= maxRetries + 1 && FromResponses(c, responses, attempts) && AllRetried(c, attempts)
    ensures |attempts| <= maxRetries ==> !Retryable(c, attempts[|attempts| - 1])
    ensures outcome == LastOutcome(c, attempts[|attempts| - 1], |attempts| - 1)
    ensures Recorded(c, outcome, |attempts| - 1, records)
    ensures forwarded == Forwarded(attempts)
    ensures forall i | 0 <= i < |attempts| - 1 :: Repeats(c, responses(i))
    ensures |attempts| <= maxRetries ==> !Repeats(c, responses(|attempts| - 1))
    ensures EndsWith(c, responses(|attempts| - 1), |attempts| - 1, outcome)
    ensures records == match outcome
      case Returned(_) => if c.recording then [Record(true, None, |attempts| - 1)] else []
      case RaisedClientError(kind, _) => if c.recording then [Record(false, Some(kind), |attempts| - 1)] else []
      case Propagated => []
  {
    hide Retryable, Repeats, EndsWith, TryOnce, LastOutcome;
    attempts, forwarded := [], [];
    while true
      invariant |attempts| <= maxRetries && FromResponses(c, responses, attempts)
      invariant AllRetryable(c, attempts)
      invariant forwarded == Forwarded(attempts)
      decreases maxRetries - |attempts|
    {
      var retryCount := |attempts|;
      var a := Perform(c, responses(retryCount));
      AttemptNext(c, responses, attempts);
      RetriedBefore(c, attempts, a);
      ForwardedNext(attempts, a);
      forwarded := forwarded + a.deltas;
      attempts := attempts + [a];
      var again;
      again, outcome, records := Settle(c, a, retryCount, maxRetries);
      if !again {
        AllRepeat(c, responses, attempts);
        RepeatsExactly(c, responses(retryCount));
        EndsExactly(c, responses(retryCount), retryCount);
        return;
      }
      RetryableNext(c, attempts);
    }
  }

  /** A call that records leaves exactly one record, unless its last attempt is lost; then none. */
  lemma OneRecordExactly(c: Call, a: Attempt, retryCount: nat, records: seq<Record>)
    requires c.recording && Recorded(c, LastOutcome(c, a, retryCount), retryCount, records)
    ensures |records| == if Lost(c, a) then 0 else 1
    ensures LastOutcome(c, a, retryCount) == Propagated <==> Lost(c, a)
  {
  }

  /** An attempt that timed out after a chunk had been forwarded. */
  predicate TimedOutHeard(a: Attempt) {
    a.end.TimeOut? && a.deltas != []
  }

  /** What any response can give: chunks are forwarded only while a stream is being read. */
  predicate Plausible(a: Attempt) {
    a.end.HttpStatus? || a.end.NoConnection? ==> a.deltas == []
  }

  lemma AttemptsArePlausible(c: Call, r: Response)
    ensures Plausible(TryOnce(c, r))
  {
    if r.Stream? { FailedEnds(c.py, r.lines); }
  }

  lemma {:induction false} ForwardedSilent(attempts: seq<Attempt>)
    ensures Forwarded(attempts) == [] <==> forall a | a in attempts :: a.deltas == []
  {
    if attempts != [] {
      ForwardedSilent(attempts[..|attempts| - 1]);
      assert attempts == attempts[..|attempts| - 1] + [attempts[|attempts| - 1]];
    }
  }

  lemma RetryableIsSilent(c: Call, a: Attempt)
    requires Retryable(c, a) && Plausible(a)
    ensures a.deltas == [] <==> !TimedOutHeard(a)
  {
  }

  lemma RetriedAreSilent(c: Call, attempts: seq<Attempt>)
    requires attempts != [] && AllRetried(c, attempts) && forall a | a in attempts :: Plausible(a)
    ensures forall a | a in attempts[..|attempts| - 1] :: a.deltas == [] <==> !TimedOutHeard(a)
  {
    forall a | a in attempts[..|attempts| - 1] ensures a.deltas == [] <==> !TimedOutHeard(a) {
      var i :| 0 <= i < |attempts| - 1 && attempts[i] == a;
      RetryableIsSilent(c, attempts[i]);
    }
  }

  /**
   * Over a whole call the caller hears exactly the last attempt's chunks, if and only if no earlier attempt
   * timed out after a chunk.
   */
  lemma HearsLastAttemptOnly(c: Call, attempts: seq<Attempt>)
    requires attempts != [] && AllRetried(c, attempts) && forall a | a in attempts :: Plausible(a)
    ensures Forwarded(attempts) == attempts[|attempts| - 1].deltas
        <==> forall a | a in attempts[..|attempts| - 1] :: !TimedOutHeard(a)
  {
    var before := attempts[..|attempts| - 1];
    ForwardedSilent(before);
    RetriedAreSilent(c, attempts);
    if Forwarded(before) != [] { assert |Forwarded(attempts)| > |attempts[|attempts| - 1].deltas|; }
  }

  lemma AllArePlausible(c: Call, responses: nat -> Response, attempts: seq<Attempt>)
    requires FromResponses(c, responses, attempts)
    ensures forall a | a in attempts :: Plausible(a)
  {
    forall i | 0 <= i < |attempts| ensures Plausible(attempts[i]) {
      assert attempts[i] == TryOnce(c, responses(i));
      AttemptsArePlausible(c, responses(i));
    }
  }

  /** The same for the attempts any call makes. */
  lemma CallHearsLastAttemptOnly(c: Call, responses: nat -> Response, attempts: seq<Attempt>)
    requires attempts != [] && AllRetried(c, attempts) && FromResponses(c, responses, attempts)
    ensures Forwarded(attempts) == attempts[|attempts| - 1].deltas
        <==> forall a | a in attempts[..|attempts| - 1] :: !TimedOutHeard(a)
  {
    hide AllRetried, FromResponses, Plausible, Forwarded, TimedOutHeard;
    AllArePlausible(c, responses, attempts);
    HearsLastAttemptOnly(c, attempts);
  }

  /** An attempt that read a stream to its end gives as content what the caller heard of it. */
  lemma StreamedAttempt(c: Call, r: Response)
    requires c.listening && r.Stream? && Streamed(c.py, r.lines, r.stop)
    ensures TryOnce(c, r).end == Content(Concat(TryOnce(c, r).deltas))
  {
    HeardIsContent(c.py, r.lines, r.stop);
  }

  /** When the call returns streamed content, that content is the clean-up of exactly what the caller heard. */
  lemma ReturnsWhatWasHeard(c: Call, attempts: seq<Attempt>)
    requires attempts != [] && AllRetried(c, attempts) && forall a | a in attempts :: Plausible(a)
    requires var last := attempts[|attempts| - 1];
      last.end == Content(Concat(last.deltas)) && LastOutcome(c, last, |attempts| - 1).Returned?
    requires forall a | a in attempts[..|attempts| - 1] :: !TimedOutHeard(a)
    ensures LastOutcome(c, attempts[|attempts| - 1], |attempts| - 1) == Returned(c.py.clean(Concat(Forwarded(attempts))))
  {
    HearsLastAttemptOnly(c, attempts);
  }

  // ---- Failing inputs ----

  /** An attempt escapes the handlers exactly when opening crashes, or reading what was opened does. */
  lemma AttemptEscapesExactly(c: Call, r: Response)
    ensures TryOnce(c, r).end.Escaped? <==>
      r.OpenCrashed? || (r.Stream? && ReadingEscapes(c.py, ReadLines(c.py, r.lines), RawText(r.lines), r.stop))
  {
  }

  /** A line's event escaped, the connection crashed, or the lines together are a document that escapes. */
  predicate ReadingEscapes(py: Python, p: Progress, raw: string, stop: Stop) {
    match p
    case Failed(_, _, end) => end.Escaped?
    case Done(_, _) => false
    case Reading(_, usage, saw) =>
      stop.Crashed? || (stop.EndOfStream? && !saw && FromJsonResponse(py, raw, usage).0.Escaped?)
  }

  /** Whatever attempts came before, a call whose opening crashes ends there, with neither a record nor a client error. */
  lemma CrashedOpeningLosesCall(c: Call, responses: nat -> Response, attempts: seq<Attempt>, records: seq<Record>)
    requires attempts != [] && FromResponses(c, responses, attempts) && responses(|attempts| - 1).OpenCrashed?
    requires Recorded(c, LastOutcome(c, attempts[|attempts| - 1], |attempts| - 1), |attempts| - 1, records)
    ensures !Retryable(c, attempts[|attempts| - 1]) && records == []
    ensures LastOutcome(c, attempts[|attempts| - 1], |attempts| - 1) == Propagated
  {
    assert attempts[|attempts| - 1] == TryOnce(c, responses(|attempts| - 1));
  }

  lemma OneText(text: string)
    ensures Concat([text]) == text
  {
    assert [text][..0] == [];
  }

  lemma OneEvent(py: Python, data: string, text: string, usage: Usage)
    requires data != "[DONE]" && FromStreamEvent(py, data, NO_USAGE) == (Content(text), usage)
    ensures ReadLines(py, [Event(data, data)]) == Reading([text], usage, true)
    ensures text != "" ==> Heard(ReadLines(py, [Event(data, data)]), true) == [text]
    ensures Concat([text]) == text
  {
    hide FromStreamEvent, RawText, Concat, Heard;
    var lines := [Event(data, data)];
    OneText(text);
    ReadLinesNext(py, lines, 0);
    assert lines[..0] == [] && lines[..0 + 1] == lines;
    assert ReadLines(py, lines[..0]) == Reading([], NO_USAGE, false);
    assert [] + [text] == [text];
    HeardNext(Reading([], NO_USAGE, false), text, usage, true);
    NothingHeard();
  }

  lemma NothingHeard()
    ensures Heard(Reading([], NO_USAGE, false), true) == []
  {
  }

  /** A time-out after a chunk is repeated, so the caller can hear the same text twice. */
  lemma TimeoutDuplicates(c: Call, data: string, text: string, usage: Usage)
    requires c.listening && text != "" && data != "[DONE]" && FromStreamEvent(c.py, data, NO_USAGE) == (Content(text), usage)
    requires c.py.clean(text) != "" && !CountsOverflow(c, usage)
    ensures var first := TryOnce(c, Stream([Event(data, data)], TimedOut));
      var second := TryOnce(c, Stream([Event(data, data)], EndOfStream));
      Retryable(c, first) && LastOutcome(c, second, 1) == Returned(c.py.clean(text)) && Forwarded([first, second]) == [text, text]
  {
    hide TryOnce, CountsOverflow, FromStreamEvent, Concat;
    var first := TryOnce(c, Stream([Event(data, data)], TimedOut));
    var second := TryOnce(c, Stream([Event(data, data)], EndOfStream));
    OneEventAttempts(c, data, text, usage);
    ForwardedNext([], first);
    ForwardedNext([first], second);
    assert [] + [first] == [first] && [first] + [second] == [first, second];
  }

  /** What is seen of a stream of one event that times out, and of one that ends. */
  lemma OneEventAttempts(c: Call, data: string, text: string, usage: Usage)
    requires c.listening && text != "" && data != "[DONE]" && FromStreamEvent(c.py, data, NO_USAGE) == (Content(text), usage)
    ensures TryOnce(c, Stream([Event(data, data)], TimedOut)) == Attempt(TimeOut, [text], usage)
    ensures TryOnce(c, Stream([Event(data, data)], EndOfStream)) == Attempt(Content(text), [text], usage)
  {
    hide FromStreamEvent, ReadLines, Concat, RawText, Heard;
    OneEvent(c.py, data, text, usage);
  }

  /** An event that reports infinitely many reasoning tokens with good content. */
  const INFINITE_COUNT := Object(map[
    "choices" := List([Object(map["delta" := Object(map["content" := Text("ok")])])]),
    "usage" := Object(map["completion_tokens_details" := Object(map["reasoning_tokens" := Infinite])])])

  lemma InfiniteCountIsRead(py: Python, data: string)
    requires py.parse(data) == Document(INFINITE_COUNT) && py.str(Text("ok")) == Some("ok")
    ensures FromStreamEvent(py, data, NO_USAGE) == (Content("ok"), NO_USAGE.(reasoning := Infinite))
  {
    var m := INFINITE_COUNT.fields;
    var choice := m["choices"].items[0];
    var details := m["usage"].fields["completion_tokens_details"];
    assert FirstChoice(m) == Some(choice.fields) && Entry(choice.fields, "delta").fields["content"] == Text("ok");
    assert Entry(choice.fields, "finish_reason") == Null && ReasoningContent(choice.fields) == Null;
    assert Entry(m["usage"].fields, "prompt_tokens") == Null && Entry(m["usage"].fields, "completion_tokens") == Null;
    assert Entry(details.fields, "reasoning_tokens") == Infinite;
    assert MergeUsage(NO_USAGE, m["usage"]) == NO_USAGE.(reasoning := Infinite);
    assert Strip("") == "" && Lower("") == "";
    assert FindContent(INFINITE_COUNT) == Value(Text("ok"));
  }

  /** Such a response, although good, is lost: no attempt follows and nothing is recorded or returned. */
  lemma InfiniteCountLosesCall(c: Call, data: string, retryCount: nat)
    requires c.py.parse(data) == Document(INFINITE_COUNT) && c.py.str(Text("ok")) == Some("ok") && data != "[DONE]"
    requires c.py.clean("ok") == "ok"
    ensures var a := TryOnce(c, Stream([Event(data, data)], EndOfStream));
      a.end == Content("ok") && !Retryable(c, a) && LastOutcome(c, a, retryCount) == Propagated
  {
    InfiniteCountIsRead(c.py, data);
    OneEvent(c.py, data, "ok", NO_USAGE.(reasoning := Infinite));
  }
}

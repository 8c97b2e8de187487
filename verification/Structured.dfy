/** The fallback pipeline for structured output (adapters/litellm.py): JSON schema, JSON object, then
    a last stage that asks for corrections. */
module Structured {
  import opened Common

  // ---- What providers answer --------------------------------------------------------------------

  datatype Usage = Usage(prompt: Option<int>, completion: Option<int>, total: Option<int>)

  const NO_USAGE := Usage(None, None, None)

  // What parsing a text against the schema gives; a JSON null is a value, but no result of the
  // first two stages.
  datatype Parsed = Value(value: string) | Null | Invalid(error: string)

  datatype Reply = Answer(content: string, usage: Usage) | Raised(error: string)

  datatype Format = Plain | JsonSchema | JsonObject | Instructor

  datatype Call = Call(messages: seq<string>, format: Format)

  // The schema, what is known about errors, and the replies to the calls in the order they are made.
  datatype Request = Request(
    hasSchema: bool, isModel: bool, retries: nat, schemaPrompt: string,
    parse: string -> Parsed, unavailable: string -> bool, unsupported: string -> bool, correction: string -> string,
    reply: nat -> Reply)

  datatype Result = Returned(parsed: Parsed) | Failed(error: string)

  // What a stage leads to: the end, or the next stage.
  datatype Verdict = End(result: Result) | TryObject | TryLast

  // `_json_schema_attempt`
  function SchemaAttempt(r: Request, reply: Reply): Verdict {
    match reply
    case Raised(error) =>
      if r.unavailable(error) then TryObject else if r.unsupported(error) then TryLast else End(Failed(error))
    case Answer(content, _) =>
      if content == "" then TryLast
      else match r.parse(content)
        case Value(v) => End(Returned(Value(v)))
        case Null => TryLast
        case Invalid(_) => TryObject
  }

  // `_json_object_attempt`; every unavailable error is also an unsupported one
  function ObjectAttempt(r: Request, reply: Reply): Verdict {
    match reply
    case Raised(error) => if r.unavailable(error) || r.unsupported(error) then TryLast else End(Failed(error))
    case Answer(content, _) =>
      if content != "" && r.parse(content).Value? then End(Returned(r.parse(content))) else TryLast
  }

  // One attempt of the last stage: a value, or the error to correct.
  function LastAttempt(r: Request, reply: Reply): Result {
    match reply
    case Raised(error) => Failed(error)
    case Answer(content, _) =>
      if r.isModel then Returned(Value(content))
      else if content == "" then Failed("Empty response content")
      else
        var parsed := r.parse(content);
        if parsed.Invalid? then Failed(parsed.error) else Returned(parsed)
  }

  // ---- The pipeline on values -------------------------------------------------------------------

  // The calls made so far, and the message list they share.
  datatype Progress = Progress(calls: seq<Call>, payload: seq<string>)

  function LastFormat(r: Request): Format {
    if r.isModel then Instructor else Plain
  }

  // The last stage, with `attempts` retries used up.
  function LastStage(r: Request, p: Progress, attempts: nat): (Result, Progress)
    requires attempts <= r.retries
    decreases r.retries - attempts
  {
    var result := LastAttempt(r, r.reply(|p.calls|));
    var calls := p.calls + [Call(p.payload, LastFormat(r))];
    if result.Returned? || attempts >= r.retries then (result, Progress(calls, p.payload))
    else LastStage(r, Progress(calls, p.payload + [r.correction(result.error)]), attempts + 1)
  }

  function Pipeline(r: Request, payload: seq<string>): (Result, Progress) {
    if !r.hasSchema then LastStage(r, Progress([], payload), 0)
    else
      var first := Progress([Call(payload, JsonSchema)], payload);
      match SchemaAttempt(r, r.reply(0))
      case End(result) => (result, first)
      case TryLast => LastStage(r, first, 0)
      case TryObject =>
        var second := Progress(first.calls + [Call(payload + [r.schemaPrompt], JsonObject)], payload);
        match ObjectAttempt(r, r.reply(1))
        case End(result) => (result, second)
        case _ => LastStage(r, second, 0)
  }

  // ---- What it guarantees -----------------------------------------------------------------------

  // Correction j was made from the error of the call before it.
  predicate Corrects(r: Request, p: Progress, end: Progress, j: nat)
    requires |p.payload| <= j < |end.payload|
  {
    var result := LastAttempt(r, r.reply(|p.calls| + j - |p.payload|));
    result.Failed? && end.payload[j] == r.correction(result.error)
  }

  // Call j saw the messages and all corrections that there were before it.
  predicate Sees(r: Request, p: Progress, end: Progress, j: nat)
    requires |p.calls| <= j < |end.calls| && |end.calls| - |p.calls| == |end.payload| - |p.payload| + 1
  {
    end.calls[j] == Call(end.payload[..|p.payload| + j - |p.calls|], LastFormat(r))
  }

  ghost predicate LastStageDone(r: Request, p: Progress, attempts: nat, result: Result, end: Progress) {
    && p.calls < end.calls && p.payload <= end.payload
    && |end.calls| - |p.calls| == |end.payload| - |p.payload| + 1 <= r.retries - attempts + 1
    && (forall j :: |p.payload| <= j < |end.payload| ==> Corrects(r, p, end, j))
    && (forall j :: |p.calls| <= j < |end.calls| ==> Sees(r, p, end, j))
    && result == LastAttempt(r, r.reply(|end.calls| - 1))
    && (result.Failed? ==> |end.payload| - |p.payload| == r.retries - attempts)
  }

  /** The last stage makes at most retries + 1 calls; every call but its last one failed and added
      exactly one correction, made from its own error, to the messages of all later calls. */
  lemma {:induction false} LastStageCalls(r: Request, p: Progress, attempts: nat)
    requires attempts <= r.retries
    ensures LastStageDone(r, p, attempts, LastStage(r, p, attempts).0, LastStage(r, p, attempts).1)
    decreases r.retries - attempts
  {
    var result := LastAttempt(r, r.reply(|p.calls|));
    if result.Failed? && attempts < r.retries {
      var next := Progress(p.calls + [Call(p.payload, LastFormat(r))], p.payload + [r.correction(result.error)]);
      var (final, end) := LastStage(r, next, attempts + 1);
      LastStageCalls(r, next, attempts + 1);
      forall j | |p.calls| <= j < |end.calls|
        ensures Sees(r, p, end, j)
      {
        if j == |p.calls| {
          assert end.calls[j] == next.calls[j];
          assert end.payload[..|p.payload|] == next.payload[..|p.payload|] == p.payload;
        } else {
          assert Sees(r, next, end, j);
        }
      }
      forall j | |p.payload| <= j < |end.payload|
        ensures Corrects(r, p, end, j)
      {
        if j == |p.payload| {
          assert end.payload[j] == next.payload[j];
        } else {
          assert Corrects(r, next, end, j);
        }
      }
    } else {
      assert p.payload[..|p.payload|] == p.payload;
    }
  }

  /** Whatever the replies: at most retries + 3 calls, one correction for each retried failure of the
      last stage, and a failure only after an error that no stage passes on, or after all retries. */
  lemma {:induction false} PipelineIsBounded(r: Request, payload: seq<string>)
    ensures var (result, end) := Pipeline(r, payload);
            var corrections := |end.payload| - |payload|;
            && 1 <= |end.calls| <= r.retries + 3
            && payload <= end.payload && corrections <= r.retries
            && (corrections > 0 ==> corrections < |end.calls|)
            && (result.Failed? && corrections < r.retries ==>
                  r.hasSchema && |end.calls| <= 2 && r.reply(|end.calls| - 1) == Raised(result.error))
  {
    if !r.hasSchema {
      LastStageCalls(r, Progress([], payload), 0);
    } else {
      var first := Progress([Call(payload, JsonSchema)], payload);
      match SchemaAttempt(r, r.reply(0))
      case End(_) =>
      case TryLast => LastStageCalls(r, first, 0);
      case TryObject =>
        var second := Progress(first.calls + [Call(payload + [r.schemaPrompt], JsonObject)], payload);
        if !ObjectAttempt(r, r.reply(1)).End? {
          LastStageCalls(r, second, 0);
        }
    }
  }

  // The content is what a call in this format was made for.
  predicate Good(r: Request, format: Format, content: string) {
    match format
    case Instructor => true
    case Plain => content != "" && !r.parse(content).Invalid?
    case _ => content != "" && r.parse(content).Value?
  }

  // What such a content is worth: itself, where the client has parsed it already, or what it parses to.
  function Worth(r: Request, format: Format, content: string): Parsed {
    if format == Instructor then Value(content) else r.parse(content)
  }

  // A good answer to call j ends the pipeline with what it is worth, and only that does.
  ghost predicate AnswerDecides(r: Request, calls: seq<Call>, result: Result, j: nat)
    requires j < |calls|
  {
    r.reply(j).Answer? ==>
      var format, content := calls[j].format, r.reply(j).content;
      && (Good(r, format, content) <==> |calls| == j + 1 && result.Returned?)
      && (Good(r, format, content) ==> result == Returned(Worth(r, format, content)))
  }

  // Why the last call made the pipeline fail: it raised, or in the last stage its answer was empty or is
  // not what the schema asks for.
  ghost predicate FailsFor(r: Request, calls: seq<Call>, error: string)
    requires calls != []
  {
    var n := |calls| - 1;
    match r.reply(n)
    case Raised(e) => error == e
    case Answer(content, _) =>
      calls[n].format == Plain
      && if content == "" then error == "Empty response content" else r.parse(content) == Invalid(error)
  }

  ghost predicate Decided(r: Request, calls: seq<Call>, result: Result) {
    && calls != [] && (forall j :: 0 <= j < |calls| ==> AnswerDecides(r, calls, result, j))
    && (result.Returned? ==> r.reply(|calls| - 1).Answer?)
    && (result.Failed? ==> FailsFor(r, calls, result.error))
  }

  lemma {:induction false} LastStageDecides(r: Request, p: Progress)
    requires forall j :: 0 <= j < |p.calls| && r.reply(j).Answer? ==> !Good(r, p.calls[j].format, r.reply(j).content)
    ensures Decided(r, LastStage(r, p, 0).1.calls, LastStage(r, p, 0).0)
  {
    var (result, end) := LastStage(r, p, 0);
    LastStageCalls(r, p, 0);
    forall j | 0 <= j < |end.calls|
      ensures AnswerDecides(r, end.calls, result, j)
    {
      if j < |p.calls| {
        assert end.calls[j] == p.calls[j];
      } else {
        assert Sees(r, p, end, j);
        if j < |end.calls| - 1 {
          assert Corrects(r, p, end, |p.payload| + j - |p.calls|);
        }
      }
    }
    assert Sees(r, p, end, |end.calls| - 1);
  }

  /** What the pipeline gives, said of the replies: the first good answer ends it with what it is worth; a
      failure is that of the last call. A request with a schema asks for JSON by schema first; it asks for a
      JSON object, with the schema's prompt, if and only if schemas are not available or the answer does not
      fit; a request without goes straight to the last stage. */
  lemma {:induction false} PipelineDecides(r: Request, payload: seq<string>)
    ensures var (result, end) := Pipeline(r, payload);
            && Decided(r, end.calls, result)
            && (r.hasSchema ==> end.calls[0] == Call(payload, JsonSchema))
            && forall j :: 0 <= j < |end.calls| && (j > 0 || !r.hasSchema) ==>
                 (end.calls[j].format in {JsonSchema, JsonObject} <==>
                    j == 1 && r.hasSchema && end.calls[1] == Call(payload + [r.schemaPrompt], JsonObject)
                    && match r.reply(0)
                       case Raised(error) => r.unavailable(error)
                       case Answer(content, _) => content != "" && r.parse(content).Invalid?)
  {
    if !r.hasSchema {
      LastStageDecides(r, Progress([], payload));
      LastFormats(r, Progress([], payload));
    } else {
      var first := Progress([Call(payload, JsonSchema)], payload);
      match SchemaAttempt(r, r.reply(0))
      case End(_) =>
      case TryLast =>
        LastStageDecides(r, first);
        LastFormats(r, first);
      case TryObject =>
        var second := Progress(first.calls + [Call(payload + [r.schemaPrompt], JsonObject)], payload);
        if !ObjectAttempt(r, r.reply(1)).End? {
          LastStageDecides(r, second);
          LastFormats(r, second);
        }
    }
  }

  // The calls of the last stage are the ones behind those before it.
  lemma {:induction false} LastFormats(r: Request, p: Progress)
    ensures var calls := LastStage(r, p, 0).1.calls;
            && p.calls < calls && forall j :: |p.calls| <= j < |calls| ==> calls[j].format == LastFormat(r)
  {
    LastStageCalls(r, p, 0);
    var (_, end) := LastStage(r, p, 0);
    forall j | |p.calls| <= j < |end.calls|
      ensures end.calls[j].format == LastFormat(r)
    {
      assert Sees(r, p, end, j);
    }
  }

  predicate InLastStage(call: Call) {
    call.format !in {JsonSchema, JsonObject}
  }

  // How many of the calls belong to the last stage.
  function LastStageShare(calls: seq<Call>): nat
    decreases |calls|
  {
    if calls == [] then 0
    else LastStageShare(calls[..|calls| - 1]) + if InLastStage(calls[|calls| - 1]) then 1 else 0
  }

  lemma {:induction false} ShareCounts(calls: seq<Call>, start: nat, j: nat)
    requires j <= |calls|
    requires forall k :: 0 <= k < |calls| ==> (InLastStage(calls[k]) <==> k >= start)
    ensures LastStageShare(calls[..j]) == if j <= start then 0 else j - start
  {
    if j > 0 {
      assert calls[..j][..j - 1] == calls[..j - 1];
      ShareCounts(calls, start, j - 1);
    }
  }

  /** In the last stage a call that raises is followed by another one exactly while there are retries
      left, whichever error it is and whatever went before. */
  lemma {:induction false} RaisedInLastStage(r: Request, p: Progress, attempts: nat, j: nat)
    requires attempts <= r.retries && r.reply(j).Raised?
    requires |p.calls| <= j < |LastStage(r, p, attempts).1.calls|
    ensures |LastStage(r, p, attempts).1.calls| > j + 1 <==> attempts + j - |p.calls| < r.retries
  {
    LastStageCalls(r, p, attempts);
  }

  predicate PassedOn(r: Request, reply: Reply) {
    reply.Raised? && (r.unavailable(reply.error) || r.unsupported(reply.error))
  }

  // A call that raises is followed by another one: in the last stage while there are retries left,
  // before it if the error only says that the response format is not supported.
  ghost predicate Retried(r: Request, calls: seq<Call>, j: nat)
    requires j < |calls|
  {
    if InLastStage(calls[j]) then LastStageShare(calls[..j]) < r.retries else PassedOn(r, r.reply(j))
  }

  // What RaisedInLastStage means for a pipeline that entered its last stage with `p`.
  lemma {:induction false} RaisedAfter(r: Request, p: Progress, j: nat)
    requires forall k :: 0 <= k < |p.calls| ==> !InLastStage(p.calls[k])
    requires |p.calls| <= j < |LastStage(r, p, 0).1.calls| && r.reply(j).Raised?
    ensures var calls := LastStage(r, p, 0).1.calls;
            |calls| > j + 1 <==> Retried(r, calls, j)
  {
    var calls := LastStage(r, p, 0).1.calls;
    RaisedInLastStage(r, p, 0, j);
    LastStageCalls(r, p, 0);
    forall k | 0 <= k < |calls|
      ensures InLastStage(calls[k]) <==> k >= |p.calls|
    {
      if k < |p.calls| {
        assert calls[k] == p.calls[k];
      } else {
        assert Sees(r, p, LastStage(r, p, 0).1, k);
      }
    }
    ShareCounts(calls, |p.calls|, j);
  }

  /** Whatever the schema and whichever call raises: before the last stage it is followed by another
      call if and only if the error says that the response format is not supported, and in the last
      stage if and only if fewer than `retries` calls of that stage came before it, for every error. */
  lemma {:induction false} ProviderErrorsAreRetried(r: Request, payload: seq<string>, j: nat)
    requires j < |Pipeline(r, payload).1.calls| && r.reply(j).Raised?
    ensures var calls := Pipeline(r, payload).1.calls;
            |calls| > j + 1 <==> Retried(r, calls, j)
  {
    if !r.hasSchema {
      RaisedAfter(r, Progress([], payload), j);
    } else {
      var first := Progress([Call(payload, JsonSchema)], payload);
      match SchemaAttempt(r, r.reply(0))
      case End(_) =>
      case TryLast => RaisedPast(r, first, j);
      case TryObject =>
        var second := Progress(first.calls + [Call(payload + [r.schemaPrompt], JsonObject)], payload);
        if !ObjectAttempt(r, r.reply(1)).End? {
          RaisedPast(r, second, j);
        }
    }
  }

  // The same for every call: those before the last stage are followed by its first call.
  lemma {:induction false} RaisedPast(r: Request, p: Progress, j: nat)
    requires forall k :: 0 <= k < |p.calls| ==>
               !InLastStage(p.calls[k]) && (r.reply(k).Raised? ==> PassedOn(r, r.reply(k)))
    requires j < |LastStage(r, p, 0).1.calls| && r.reply(j).Raised?
    ensures var calls := LastStage(r, p, 0).1.calls;
            |calls| > j + 1 <==> Retried(r, calls, j)
  {
    var calls := LastStage(r, p, 0).1.calls;
    LastStageCalls(r, p, 0);
    if j < |p.calls| {
      assert calls[j] == p.calls[j];
    } else {
      RaisedAfter(r, p, j);
    }
  }

  // A request with a schema whose last stage makes a second call after an error that is not about
  // the response format at all.
  lemma {:induction false} UnrelatedErrorIsRetried(r: Request, payload: seq<string>, error: string)
    requires r.hasSchema && r.retries == 1 && !r.unavailable(error) && !r.unsupported(error)
    requires r.reply(0) == Answer("", NO_USAGE)
    requires forall k :: k > 0 ==> r.reply(k) == Raised(error)
    ensures Pipeline(r, payload).0 == Failed(error)
    ensures Pipeline(r, payload).1.calls
            == [Call(payload, JsonSchema), Call(payload, LastFormat(r)),
                Call(payload + [r.correction(error)], LastFormat(r))]
  {
    var first := Progress([Call(payload, JsonSchema)], payload);
    assert Pipeline(r, payload) == LastStage(r, first, 0);
    assert r.reply(1) == r.reply(2) == Raised(error);
    var second := Progress(first.calls + [Call(payload, LastFormat(r))], payload + [r.correction(error)]);
    assert LastStage(r, first, 0) == LastStage(r, second, 1);
  }

  // ---- Usage ------------------------------------------------------------------------------------

  function AddCount(have: Option<int>, more: Option<int>): Option<int> {
    if more.None? then have else Some((if have.Some? then have.value else 0) + more.value)
  }

  // `add_token_usage`
  function AddUsage(have: Usage, more: Usage): Usage {
    Usage(AddCount(have.prompt, more.prompt), AddCount(have.completion, more.completion),
          AddCount(have.total, more.total))
  }

  function UsageOf(reply: Reply): Usage {
    if reply.Answer? then reply.usage else NO_USAGE
  }

  // The usage of the first n calls; calls that raised add nothing.
  function UsageAfter(r: Request, n: nat): Usage {
    if n == 0 then NO_USAGE else AddUsage(UsageAfter(r, n - 1), UsageOf(r.reply(n - 1)))
  }

  datatype Counter = PromptTokens | CompletionTokens | TotalTokens

  function Count(usage: Usage, counter: Counter): Option<int> {
    match counter
    case PromptTokens => usage.prompt
    case CompletionTokens => usage.completion
    case TotalTokens => usage.total
  }

  // What the calls that told the count told together.
  function Told(r: Request, counter: Counter, n: nat): int {
    if n == 0 then 0
    else
      var more := Count(UsageOf(r.reply(n - 1)), counter);
      Told(r, counter, n - 1) + if more.Some? then more.value else 0
  }

  /** Each of the three counts is that of all answered calls together, and stays unknown exactly while
      no call told it. */
  lemma {:induction false} CountsAddUp(r: Request, counter: Counter, n: nat)
    ensures var total := Count(UsageAfter(r, n), counter);
            && (total.None? <==> forall k :: 0 <= k < n ==> Count(UsageOf(r.reply(k)), counter).None?)
            && Told(r, counter, n) == if total.Some? then total.value else 0
  {
    if n > 0 {
      CountsAddUp(r, counter, n - 1);
    }
  }

  // ---- The pipeline in place --------------------------------------------------------------------

  class StructuredRequest {
    const request: Request
    var usage: Usage
    // the list that the pipeline appends corrections to
    var payload: seq<string>
    // history: the calls that were made
    var calls: seq<Call>

    constructor (request: Request, payload: seq<string>)
      ensures this.request == request && this.payload == payload && calls == [] && usage == NO_USAGE
    {
      this.request, this.payload, calls, usage := request, payload, [], NO_USAGE;
    }

    predicate Counted()
      reads this
    {
      usage == UsageAfter(request, |calls|)
    }

    /** `complete` and `_record` */
    method Complete(call: Call) returns (reply: Reply)
      requires Counted()
      modifies this`usage, this`calls
      ensures Counted() && calls == old(calls) + [call] && reply == request.reply(|old(calls)|)
    {
      reply := request.reply(|calls|);
      calls := calls + [call];
      if reply.Answer? {
        usage := AddUsage(usage, reply.usage);
      }
    }

    method RunLast() returns (result: Result)
      requires Counted()
      modifies this
      ensures Counted()
      ensures (result, Progress(calls, payload)) == LastStage(request, old(Progress(calls, payload)), 0)
    {
      var attempts := 0;
      while true
        invariant Counted() && attempts <= request.retries
        invariant LastStage(request, Progress(calls, payload), attempts)
                  == LastStage(request, old(Progress(calls, payload)), 0)
        decreases request.retries - attempts
      {
        var reply := Complete(Call(payload, LastFormat(request)));
        result := LastAttempt(request, reply);
        if result.Returned? || attempts >= request.retries {
          return;
        }
        payload := payload + [request.correction(result.error)];
        attempts := attempts + 1;
      }
    }

    /** `run` over `_structured_pipeline`: the usage is that of all calls made. */
    method Run() returns (result: Result)
      requires Counted() && calls == []
      modifies this
      ensures Counted()
      ensures (result, Progress(calls, payload)) == Pipeline(request, old(payload))
    {
      if request.hasSchema {
        var reply := Complete(Call(payload, JsonSchema));
        assert calls == [Call(payload, JsonSchema)];
        var verdict := SchemaAttempt(request, reply);
        if verdict.End? {
          return verdict.result;
        }
        if verdict.TryObject? {
          reply := Complete(Call(payload + [request.schemaPrompt], JsonObject));
          verdict := ObjectAttempt(request, reply);
          if verdict.End? {
            return verdict.result;
          }
        }
      }
      result := RunLast();
    }
  }
}

/**
 * The call policy of the GPT driver (`process` in the GPT-3.5 library): the context-length guard,
 * the bounded retry loop around the HTTPS call, the acceptance of a response, and the parsing of a
 * sample-response directive used instead of the call in test configurations.
 *
 * The token count, the HTTPS replies and the fields read out of a response by path are inputs.
 */
module AiLibGpt35 {
  import opened Optional
  import opened JsString

  // ---------------------------------------------------------------------------------------------
  // Model policy and responses
  // ---------------------------------------------------------------------------------------------

  /**
   * What the driver reads from the model configuration: `http_retry_codes`, `api_max_retries`,
   * `request.max_tokens`, whether `response_finishreason` and `response_cost_of_query_path` are
   * set, and `response_ok_finish_reasons`.
   */
  datatype Policy = Policy(retryCodes: Option<seq<int>>, apiMaxRetries: Option<int>, maxTokens: Option<int>,
                           checksFinishReason: bool, okFinishReasons: seq<string>, readsCost: bool)

  /**
   * A non-null response: its status, whether `data` is truthy and `error` set, and the content,
   * finish reason and cost found at the configured paths (`None` when absent or falsy).
   */
  datatype HttpResponse = HttpResponse(status: int, hasData: bool, hasError: bool,
                                       content: Option<string>, finishReason: Option<string>, cost: Option<string>)

  /** One attempt: it threw, or it returned a response or null. */
  datatype Reply = CallThrew | Replied(response: Option<HttpResponse>)

  /** `{airesponse, metric_cost}`. */
  datatype AiResult = AiResult(airesponse: string, metricCost: Option<string>)

  const DefaultRetries := 3

  /** `api_max_retries || DEFAULT_503_RETRIES`: an absent or zero setting means 3. */
  function MaxRetries(p: Policy): (m: int)
    ensures p.apiMaxRetries.None? || p.apiMaxRetries == Some(0) ==> m == DefaultRetries
    ensures p.apiMaxRetries.Some? && p.apiMaxRetries.value != 0 ==> m == p.apiMaxRetries.value
  {
    if p.apiMaxRetries.Some? && p.apiMaxRetries.value != 0 then p.apiMaxRetries.value else DefaultRetries
  }

  /** A status that asks for another attempt: one of the configured codes, or 503 when none are configured. */
  predicate Retryable(status: int, codes: Option<seq<int>>) {
    (codes.Some? && status in codes.value) || (codes.None? && status == 503)
  }

  /** The context-length guard: the request goes out unless the count exceeds `max_tokens - 1`. */
  predicate FitsContext(tokenCount: int, maxTokens: Option<int>) {
    !(maxTokens.Some? && tokenCount > maxTokens.value - 1)
  }

  // ---------------------------------------------------------------------------------------------
  // The retry loop
  // ---------------------------------------------------------------------------------------------

  /** How the loop ended: an attempt threw, or the last response (possibly null) after `calls` attempts. */
  datatype Attempts = Thrown(calls: nat) | Finished(response: Option<HttpResponse>, calls: nat)

  function Max0(m: int): nat { if m < 0 then 0 else m }

  /**
   * The attempts from the `k`-th on. Attempt `k` is made; a throw ends everything; a non-null
   * response with a retryable status is retried while at most `max` attempts have been made.
   */
  function AttemptsFrom(replies: nat -> Reply, codes: Option<seq<int>>, max: int, k: nat): (r: Attempts)
    requires k == 0 || k <= max
    ensures k < r.calls <= Max0(max) + 1
    ensures forall j :: k <= j < r.calls - 1 ==> replies(j).Replied? && replies(j).response.Some?
                                                 && Retryable(replies(j).response.value.status, codes)
    ensures r.Thrown? <==> replies(r.calls - 1).CallThrew?
    ensures r.Finished? ==> r.response == replies(r.calls - 1).response
    ensures r.Finished? && r.calls <= max ==> r.response.None? || !Retryable(r.response.value.status, codes)
    decreases Max0(max) - k
  {
    match replies(k)
    case CallThrew => Thrown(k + 1)
    case Replied(resp) =>
      if resp.Some? && Retryable(resp.value.status, codes) && k + 1 <= max then AttemptsFrom(replies, codes, max, k + 1)
      else Finished(resp, k + 1)
  }

  /** The do-while loop of `process`: attempt, and repeat while the response asks for it and retries remain. */
  method CallWithRetries(replies: nat -> Reply, codes: Option<seq<int>>, max: int) returns (r: Attempts)
    ensures r == AttemptsFrom(replies, codes, max, 0)
  {
    var reply := replies(0);
    if reply.CallThrew? {
      return Thrown(1);
    }
    var response := reply.response;
    var retries := 1;
    while response.Some? && Retryable(response.value.status, codes) && retries <= max
      invariant 1 <= retries && (retries == 1 || retries <= max + 1)
      invariant replies(retries - 1).Replied? && response == replies(retries - 1).response
      invariant AttemptsFrom(replies, codes, max, 0)
             == if response.Some? && Retryable(response.value.status, codes) && retries <= max
                then AttemptsFrom(replies, codes, max, retries)
                else Finished(response, retries)
      decreases max - retries
    {
      reply := replies(retries);
      if reply.CallThrew? {
        return Thrown(retries + 1);
      }
      response := reply.response;
      retries := retries + 1;
    }
    r := Finished(response, retries);
  }

  // ---------------------------------------------------------------------------------------------
  // process
  // ---------------------------------------------------------------------------------------------

  /**
   * Acceptance of the final response: null, data-less or erroneous responses, missing content, and
   * a finish reason outside the accepted ones (when one is configured) all give null.
   */
  function Accept(resp: Option<HttpResponse>, p: Policy): (r: Option<AiResult>)
    ensures r.Some? <==> && resp.Some? && resp.value.hasData && !resp.value.hasError && resp.value.content.Some?
                         && (p.checksFinishReason ==> resp.value.finishReason.Some? && resp.value.finishReason.value in p.okFinishReasons)
    ensures r.Some? ==> r.value.airesponse == resp.value.content.value
                        && r.value.metricCost == (if p.readsCost then resp.value.cost else None)
  {
    if resp.None? || !resp.value.hasData || resp.value.hasError then None
    else if resp.value.content.None? then None
    else if p.checksFinishReason && !(resp.value.finishReason.Some? && resp.value.finishReason.value in p.okFinishReasons) then None
    else Some(AiResult(resp.value.content.value, if p.readsCost then resp.value.cost else None))
  }

  /**
   * `process` from the model object on: a missing model object gives null, then the context-length
   * guard, the attempts and the acceptance; the second component counts the attempts made.
   */
  function ProcessSpec(model: Option<Policy>, tokenCount: int, replies: nat -> Reply): (Option<AiResult>, nat) {
    if model.None? then (None, 0)
    else
      var p := model.value;
      if !FitsContext(tokenCount, p.maxTokens) then (None, 0)
      else match AttemptsFrom(replies, p.retryCodes, MaxRetries(p), 0)
        case Thrown(n) => (None, n)
        case Finished(resp, n) => (Accept(resp, p), n)
  }

  /**
   * No model object or a request over the context length makes no call; otherwise between one and
   * `max + 1` attempts are made, a thrown attempt gives null at once, and a result is only ever the
   * accepted last response.
   */
  lemma ProcessBounds(model: Option<Policy>, tokenCount: int, replies: nat -> Reply)
    ensures var (r, calls) := ProcessSpec(model, tokenCount, replies);
      && (model.None? || !FitsContext(tokenCount, model.value.maxTokens) ==> r.None? && calls == 0)
      && (model.Some? && FitsContext(tokenCount, model.value.maxTokens) ==> 1 <= calls <= Max0(MaxRetries(model.value)) + 1)
      && (calls > 0 && replies(calls - 1).CallThrew? ==> r.None?)
      && (r.Some? ==> calls > 0 && replies(calls - 1).Replied? && r == Accept(replies(calls - 1).response, model.value))
  {
  }

  /** `process`, returning its result and the number of attempts made. */
  method Process(model: Option<Policy>, tokenCount: int, replies: nat -> Reply) returns (r: Option<AiResult>, calls: nat)
    ensures (r, calls) == ProcessSpec(model, tokenCount, replies)
  {
    if model.None? {
      return None, 0;
    }
    var p := model.value;
    if p.maxTokens.Some? && tokenCount > p.maxTokens.value - 1 {
      return None, 0;
    }
    var attempts := CallWithRetries(replies, p.retryCodes, MaxRetries(p));
    match attempts {
      case Thrown(n) => return None, n;
      case Finished(resp, n) => return Accept(resp, p), n;
    }
  }

  // ---------------------------------------------------------------------------------------------
  // Sample-response directives
  // ---------------------------------------------------------------------------------------------

  const ModulePrefix := "module("

  /** A sample response read from a file, or produced by a module called with arguments. */
  datatype Directive = SampleFile(name: string) | SampleModule(moduleName: string, args: seq<string>)

  function TrimAll(parts: seq<string>): (r: seq<string>)
    ensures |r| == |parts| && forall i :: 0 <= i < |parts| ==> r[i] == Trim(parts[i])
  {
    seq(|parts|, i requires 0 <= i < |parts| => Trim(parts[i]))
  }

  /**
   * The directive's meaning: a file name (untrimmed) unless the trimmed directive starts with
   * `module(`; otherwise its comma-separated parts, each trimmed, name the module (the first part
   * without the prefix and its last character) and its arguments.
   */
  function DirectiveOf(d: string): (r: Directive)
    ensures !StartsWith(Trim(d), ModulePrefix) <==> r == SampleFile(d)
  {
    if !StartsWith(Trim(d), ModulePrefix) then SampleFile(d)
    else FromTuples(TrimAll(Split(Trim(d), ',')))
  }

  /** The module named by the first trimmed part, without the prefix and its last character, and the remaining parts as arguments. */
  function FromTuples(tuples: seq<string>): (r: Directive)
    requires |tuples| >= 1
    ensures r.SampleModule? && |r.moduleName| <= |tuples[0]| && |r.args| == |tuples| - 1
  {
    SampleModule(Substring(tuples[0], |ModulePrefix|, |tuples[0]| - 1), tuples[1..])
  }

  /** `_getSampleResponse`'s parsing, trimming the split parts in place. */
  method ParseDirective(d: string) returns (r: Directive)
    ensures r == DirectiveOf(d)
  {
    var trimmed := Trim(d);
    if !StartsWith(trimmed, ModulePrefix) {
      return SampleFile(d);
    }
    var parts := Split(trimmed, ',');
    var tuples := new string[|parts|](i requires 0 <= i < |parts| => parts[i]);
    assert tuples[..] == parts;
    TrimEach(tuples);
    r := FromTuples(tuples[..]);
  }

  /** Trims every element of `a` in place. */
  method TrimEach(a: array<string>)
    modifies a
    ensures a[..] == TrimAll(old(a[..]))
  {
    var i := 0;
    while i < a.Length
      invariant 0 <= i <= a.Length
      invariant forall j :: 0 <= j < i ==> a[j] == Trim(old(a[j]))
      invariant forall j :: i <= j < a.Length ==> a[j] == old(a[j])
    {
      a[i] := Trim(a[i]);
      i := i + 1;
    }
  }

  /** The first character of a join is that of its first part, when that part is not empty. */
  lemma JoinFirst(parts: seq<string>, sep: string)
    requires |parts| >= 1 && parts[0] != ""
    ensures Join(parts, sep) != "" && Join(parts, sep)[..|parts[0]|] == parts[0]
  {
  }

  /** The last character of a join is that of its last part, when that part is not empty. */
  lemma {:induction false} JoinLast(parts: seq<string>, sep: string)
    requires |parts| >= 1 && parts[|parts| - 1] != ""
    ensures var j := Join(parts, sep); j != "" && j[|j| - 1] == parts[|parts| - 1][|parts[|parts| - 1]| - 1]
  {
    if |parts| > 1 {
      JoinLast(parts[1..], sep);
    }
  }

  /** A directive part without commas, non-empty, and neither starting nor ending with whitespace. */
  predicate Clean(a: string) {
    ',' !in a && a != "" && !IsWhitespace(a[0]) && !IsWhitespace(a[|a| - 1])
  }

  /** What the module part `module(m)` of a directive is made of. */
  lemma ModulePart(m: string)
    requires ',' !in m
    ensures var head := ModulePrefix + m + ")";
      && Clean(head) && StartsWith(head, ModulePrefix) && Substring(head, |ModulePrefix|, |head| - 1) == m
  {
    var head := ModulePrefix + m + ")";
    assert forall i :: 0 <= i < |head| ==> head[i] == if i < 7 then ModulePrefix[i] else if i < 7 + |m| then m[i - 7] else ')';
    assert head[7..|head| - 1] == m;
  }

  /** A directive joined from clean parts, the first starting with `module(`, is its own trim and starts with `module(`. */
  lemma DirectiveTrimmed(parts: seq<string>)
    requires |parts| >= 1 && StartsWith(parts[0], ModulePrefix) && Clean(parts[|parts| - 1])
    ensures var d := Join(parts, ","); Trim(d) == d && StartsWith(d, ModulePrefix)
  {
    var d := Join(parts, ",");
    JoinFirst(parts, ",");
    JoinLast(parts, ",");
    assert d[..|parts[0]|][..7] == parts[0][..7];
    TrimOfTrimmed(d);
  }

  /**
   * Parsing gives back the module and arguments a directive was written from, when none of them
   * holds a comma and every argument is non-empty and has no surrounding whitespace.
   */
  lemma DirectiveRoundTrip(m: string, args: seq<string>)
    requires ',' !in m
    requires forall i :: 0 <= i < |args| ==> Clean(args[i])
    ensures DirectiveOf(Join([ModulePrefix + m + ")"] + args, ",")) == SampleModule(m, args)
  {
    var head := ModulePrefix + m + ")";
    ModulePart(m);
    PartsRoundTrip(head, args);
    assert ([head] + args)[1..] == args;
  }

  /** Splitting and trimming a directive joined from clean parts gives back those parts. */
  lemma PartsRoundTrip(head: string, args: seq<string>)
    requires Clean(head) && StartsWith(head, ModulePrefix)
    requires forall i :: 0 <= i < |args| ==> Clean(args[i])
    ensures DirectiveOf(Join([head] + args, ",")) == FromTuples([head] + args)
  {
    var parts := [head] + args;
    assert forall i :: 0 <= i < |parts| ==> Clean(parts[i]) by {
      forall i | 0 <= i < |parts|
        ensures Clean(parts[i])
      {
        if i > 0 {
          assert parts[i] == args[i - 1];
        }
      }
    }
    JoinedRoundTrip(parts);
  }

  /** The same, for the parts as one sequence. */
  lemma JoinedRoundTrip(parts: seq<string>)
    requires |parts| >= 1 && StartsWith(parts[0], ModulePrefix)
    requires forall i :: 0 <= i < |parts| ==> Clean(parts[i])
    ensures DirectiveOf(Join(parts, ",")) == FromTuples(parts)
  {
    var d := Join(parts, ",");
    DirectiveTrimmed(parts);
    SplitJoin(parts, ',');
    assert Split(Trim(d), ',') == parts;
    TrimmedParts(parts);
  }

  /** Clean parts are left as they are by trimming. */
  lemma TrimmedParts(parts: seq<string>)
    requires forall i :: 0 <= i < |parts| ==> Clean(parts[i])
    ensures TrimAll(parts) == parts
  {
    forall i | 0 <= i < |parts|
      ensures Trim(parts[i]) == parts[i]
    {
      TrimOfTrimmed(parts[i]);
    }
  }
}

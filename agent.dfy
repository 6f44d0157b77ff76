/** The agent's control loops: the retry controller around whole attempts,
    the rate-limit backoff around each model call, and the bounded ReAct loop
    that ends at the first fenced JSON answer. The model, its tools and
    `json.loads` are oracles the loops receive as functions. */
module Agent {
  import opened Wrappers
  import opened PyText
  import opened Records
  import Validation

  // ----- run_with_retries -----

  /** What one run of the ReAct loop did: raised an exception whose text is
      `message`, or returned a JSON value (None for a falsy non-object value). */
  datatype AttemptOutcome = Raise(message: string) | Output(output: Option<Decision>)

  /** The loop returned a truthy output: present and not `{}`. */
  predicate Produced(o: AttemptOutcome) {
    o.Output? && o.output.Some? && !o.output.value.IsEmpty()
  }

  /** The attempt passes: its output is truthy and the gate finds no error. */
  predicate Succeeds(expected: Decision, o: AttemptOutcome) {
    Produced(o) && Validation.Errors(expected, o.output.value) == []
  }

  /** The gate's error messages joined with "; ". */
  function JoinErrors(errors: seq<Validation.ValidationError>): string {
    Join(seq(|errors|, i requires 0 <= i < |errors| => errors[i].Text()), "; ")
  }

  const NoJsonMessage := "Agent failed to produce JSON output."

  /** The text an attempt leaves in `last_error`; None when it succeeded. */
  function AttemptError(expected: Decision, o: AttemptOutcome): (e: Option<string>)
    ensures e.None? <==> Succeeds(expected, o)
  {
    match o
    case Raise(m) => Some("Runtime Error: " + m)
    case Output(out) =>
      if !Produced(o) then Some("Runtime Error: " + NoJsonMessage)
      else
        var errors := Validation.Errors(expected, out.value);
        if errors == [] then None else Some("Validation Failed: " + JoinErrors(errors))
  }

  /** The context handed to the attempt that follows `outcomes`: nothing
      before the first attempt, else the previous attempt's error. */
  function ContextAfter(expected: Decision, outcomes: seq<AttemptOutcome>): Option<string> {
    if outcomes == [] then None else AttemptError(expected, outcomes[|outcomes| - 1])
  }

  /** The contexts handed to the attempts that produced `outcomes`, in order. */
  function Contexts(expected: Decision, outcomes: seq<AttemptOutcome>): (contexts: seq<Option<string>>)
    ensures |contexts| == |outcomes|
    decreases |outcomes|
  {
    if outcomes == [] then
      []
    else
      var before := outcomes[..|outcomes| - 1];
      Contexts(expected, before) + [ContextAfter(expected, before)]
  }

  /** The outcomes of attempts 1..k when each attempt is numbered and told
      the error of the one before it. */
  function Trace(agent: (nat, Option<string>) -> AttemptOutcome, expected: Decision, k: nat): (outcomes: seq<AttemptOutcome>)
    ensures |outcomes| == k
    decreases k
  {
    if k == 0 then
      []
    else
      var before := Trace(agent, expected, k - 1);
      before + [agent(k, ContextAfter(expected, before))]
  }

  /** Attempt i + 1 was given context None when it is the first, and the error
      of attempt i otherwise; and it was made with that context. */
  lemma {:induction false} TraceThreadsErrors(agent: (nat, Option<string>) -> AttemptOutcome, expected: Decision, k: nat, i: nat)
    requires i < k
    ensures Trace(agent, expected, k)[i] == agent(i + 1, Contexts(expected, Trace(agent, expected, k))[i])
    ensures Contexts(expected, Trace(agent, expected, k))[i]
      == if i == 0 then None else AttemptError(expected, Trace(agent, expected, k)[i - 1])
    decreases k
  {
    var outcomes := Trace(agent, expected, k);
    var before := Trace(agent, expected, k - 1);
    assert outcomes[..k - 1] == before;
    assert Contexts(expected, outcomes) == Contexts(expected, before) + [ContextAfter(expected, before)];
    if i < k - 1 {
      TraceThreadsErrors(agent, expected, k - 1, i);
      if i > 0 {
        assert outcomes[i - 1] == before[i - 1];
      }
    } else if i > 0 {
      assert before[i - 1] == outcomes[i - 1];
    }
  }

  /** `last_output` after these attempts: the value of the latest attempt whose
      ReAct loop returned (an empty one included), None if every attempt raised. */
  function LastOutput(outcomes: seq<AttemptOutcome>): Option<Decision>
    decreases |outcomes|
  {
    if outcomes == [] then
      None
    else if outcomes[|outcomes| - 1].Output? then
      outcomes[|outcomes| - 1].output
    else
      LastOutput(outcomes[..|outcomes| - 1])
  }

  /** `last_output` is None when every attempt raised, and otherwise the
      value of the latest attempt that returned. */
  lemma {:induction false} LastOutputIsLatest(outcomes: seq<AttemptOutcome>)
    ensures (forall i :: 0 <= i < |outcomes| ==> outcomes[i].Raise?) ==> LastOutput(outcomes) == None
    ensures (exists i :: 0 <= i < |outcomes| && outcomes[i].Output?) ==>
      exists i :: 0 <= i < |outcomes| && outcomes[i].Output? && LastOutput(outcomes) == outcomes[i].output
        && forall j :: i < j < |outcomes| ==> outcomes[j].Raise?
    decreases |outcomes|
  {
    if outcomes != [] {
      var n := |outcomes| - 1;
      if outcomes[n].Output? {
        assert LastOutput(outcomes) == outcomes[n].output;
      } else {
        var before := outcomes[..n];
        assert forall i :: 0 <= i < |before| ==> before[i] == outcomes[i];
        assert LastOutput(outcomes) == LastOutput(before);
        LastOutputIsLatest(before);
        if exists i :: 0 <= i < |outcomes| && outcomes[i].Output? {
          var k :| 0 <= k < |outcomes| && outcomes[k].Output?;
          assert before[k].Output?;
          var i :| 0 <= i < |before| && before[i].Output? && LastOutput(before) == before[i].output
            && forall j :: i < j < |before| ==> before[j].Raise?;
          assert forall j :: i < j < |outcomes| ==> outcomes[j].Raise?;
        }
      }
    }
  }

  /** The sleeps `2*1, 2*2, ..., 2*m` that follow the first m attempts. */
  function Backoffs(m: int): (r: seq<nat>)
    ensures |r| == if m > 0 then m else 0
    ensures forall i :: 0 <= i < |r| ==> r[i] == 2 * (i + 1)
    decreases m
  {
    if m <= 0 then [] else Backoffs(m - 1) + [2 * m]
  }

  /** One more attempt, made with the context the trace so far leaves: the
      trace, its contexts, the next context and `last_output` each grow by that
      attempt alone. */
  lemma TraceStep(agent: (nat, Option<string>) -> AttemptOutcome, expected: Decision, before: seq<AttemptOutcome>, outcome: AttemptOutcome)
    requires before == Trace(agent, expected, |before|)
    requires outcome == agent(|before| + 1, ContextAfter(expected, before))
    ensures before + [outcome] == Trace(agent, expected, |before| + 1)
    ensures Contexts(expected, before + [outcome]) == Contexts(expected, before) + [ContextAfter(expected, before)]
    ensures ContextAfter(expected, before + [outcome]) == AttemptError(expected, outcome)
    ensures LastOutput(before + [outcome]) == if outcome.Output? then outcome.output else LastOutput(before)
  {
    assert (before + [outcome])[..|before|] == before;
  }

  /** No attempt among `outcomes` passed the gate. */
  predicate NoneSucceed(expected: Decision, outcomes: seq<AttemptOutcome>)
    decreases |outcomes|
  {
    outcomes == [] || (NoneSucceed(expected, outcomes[..|outcomes| - 1]) && !Succeeds(expected, outcomes[|outcomes| - 1]))
  }

  /** `NoneSucceed` says of every attempt that it failed. */
  lemma {:induction false} NoneSucceedEach(expected: Decision, outcomes: seq<AttemptOutcome>)
    requires NoneSucceed(expected, outcomes)
    ensures forall i :: 0 <= i < |outcomes| ==> !Succeeds(expected, outcomes[i])
    decreases |outcomes|
  {
    if outcomes != [] {
      var before := outcomes[..|outcomes| - 1];
      NoneSucceedEach(expected, before);
      assert forall i :: 0 <= i < |before| ==> before[i] == outcomes[i];
    }
  }

  /** `run_with_retries`: up to `maxRetries` attempts, each told the previous
      attempt's error; the first attempt that passes the gate is returned at
      once, otherwise the last output any attempt returned. `outcomes`,
      `contexts` and `sleeps` record the calls made and the pauses taken. */
  method RunWithRetries(agent: (nat, Option<string>) -> AttemptOutcome, expected: Decision, maxRetries: int)
    returns (result: Option<Decision>, ghost outcomes: seq<AttemptOutcome>, ghost contexts: seq<Option<string>>, ghost sleeps: seq<nat>)
    ensures |outcomes| <= (if maxRetries > 0 then maxRetries else 0)
    ensures outcomes == Trace(agent, expected, |outcomes|)
    ensures contexts == Contexts(expected, outcomes)
    ensures forall i :: 0 <= i < |outcomes| - 1 ==> !Succeeds(expected, outcomes[i])
    ensures sleeps == Backoffs(|outcomes| - 1)
    ensures if |outcomes| > 0 && Succeeds(expected, outcomes[|outcomes| - 1])
      then result == outcomes[|outcomes| - 1].output
      else |outcomes| == (if maxRetries > 0 then maxRetries else 0) && result == LastOutput(outcomes)
  {
    var lastError: Option<string> := None;
    var lastOutput: Option<Decision> := None;
    outcomes, contexts, sleeps := [], [], [];
    var attempt := 1;
    while attempt <= maxRetries
      invariant 1 <= attempt && (attempt == 1 || attempt <= maxRetries + 1)
      invariant |outcomes| == attempt - 1
      invariant outcomes == Trace(agent, expected, attempt - 1)
      invariant contexts == Contexts(expected, outcomes)
      invariant NoneSucceed(expected, outcomes)
      invariant lastError == ContextAfter(expected, outcomes)
      invariant lastOutput == LastOutput(outcomes)
      invariant sleeps == Backoffs(if attempt - 1 < maxRetries then attempt - 1 else attempt - 2)
    {
      ghost var before := outcomes;
      contexts := contexts + [lastError];
      var outcome := agent(attempt, lastError);
      TraceStep(agent, expected, before, outcome);
      outcomes := outcomes + [outcome];
      if outcome.Output? {
        lastOutput := outcome.output;
      }
      lastError := Gate(expected, outcome);
      if lastError.None? {
        NoneSucceedEach(expected, before);
        result := outcome.output;
        return;
      }
      if attempt < maxRetries {
        sleeps := sleeps + [2 * attempt];
      }
      attempt := attempt + 1;
    }
    NoneSucceedEach(expected, outcomes);
    result := lastOutput;
  }

  /** The body of one attempt after the ReAct loop: an exception or an empty
      output becomes a "Runtime Error", otherwise `validate_response` decides. */
  method Gate(expected: Decision, outcome: AttemptOutcome) returns (error: Option<string>)
    ensures error == AttemptError(expected, outcome)
  {
    match outcome {
      case Raise(m) =>
        error := Some("Runtime Error: " + m);
      case Output(output) =>
        if output.None? || output.value.IsEmpty() {
          error := Some("Runtime Error: " + NoJsonMessage);
        } else {
          var errors := Validation.ValidateResponse(expected, output.value);
          if errors == [] {
            error := None;
          } else {
            error := Some("Validation Failed: " + JoinErrors(errors));
          }
        }
    }
  }

  // ----- _invoke_with_backoff -----

  /** What one model call did: returned a response, or raised an error with this text. */
  datatype CallResult<R> = Returned(response: R) | Failed(error: string)

  /** What the backoff helper does: return a response, re-raise an error, or,
      when its loop makes no call at all, fall through and return None. */
  datatype InvokeResult<R> = Response(response: R) | Reraised(error: string) | NoResponse

  /** An error the helper retries: its text holds "429", or "rate_limit" ignoring case. */
  predicate IsRateLimit(error: string) {
    Contains(error, "429") || Contains(Lower(error), "rate_limit")
  }

  function Pow2(n: nat): (r: nat)
    ensures r >= 1
  {
    if n == 0 then 1 else 2 * Pow2(n - 1)
  }

  /** The base delays 1, 2, 4, ... of the first m retries (the jitter left out). */
  function BaseDelays(m: int): (r: seq<nat>)
    ensures |r| == if m > 0 then m else 0
    ensures forall i :: 0 <= i < |r| ==> r[i] == Pow2(i)
    decreases m
  {
    if m <= 0 then [] else BaseDelays(m - 1) + [Pow2(m - 1)]
  }

  /** `_invoke_with_backoff`: call `call(0)`, `call(1)`, ... while the error is
      a rate-limit one, at most `maxRetries` times; any other error, and a
      rate-limit error on the last allowed call, is re-raised. */
  method InvokeWithBackoff<R>(call: nat -> CallResult<R>, maxRetries: int)
    returns (result: InvokeResult<R>, ghost calls: nat, ghost delays: seq<nat>)
    ensures maxRetries <= 0 ==> calls == 0 && result == NoResponse
    ensures maxRetries > 0 ==> 1 <= calls <= maxRetries
    ensures forall i :: 0 <= i < calls - 1 ==> call(i).Failed? && IsRateLimit(call(i).error)
    ensures calls > 0 && call(calls - 1).Returned? ==> result == Response(call(calls - 1).response)
    ensures calls > 0 && call(calls - 1).Failed? ==>
      result == Reraised(call(calls - 1).error) && (!IsRateLimit(call(calls - 1).error) || calls == maxRetries)
    ensures delays == BaseDelays(calls - 1)
  {
    var delay: nat := 1;
    calls, delays := 0, [];
    var attempt: nat := 0;
    while attempt < maxRetries
      invariant maxRetries > 0 ==> attempt < maxRetries
      invariant maxRetries <= 0 ==> attempt == 0
      invariant calls == attempt && delay == Pow2(attempt) && delays == BaseDelays(attempt)
      invariant forall i :: 0 <= i < attempt ==> call(i).Failed? && IsRateLimit(call(i).error)
    {
      calls := calls + 1;
      match call(attempt) {
        case Returned(r) =>
          result := Response(r);
          return;
        case Failed(e) =>
          if Contains(e, "429") || Contains(Lower(e), "rate_limit") {
            if attempt == maxRetries - 1 {
              result := Reraised(e);
              return;
            }
            delays := delays + [delay];
            delay := delay * 2;
          } else {
            result := Reraised(e);
            return;
          }
      }
      attempt := attempt + 1;
    }
    result := NoResponse;
  }

  // ----- the final answer of _execute_react_loop -----

  const Fence := "```json"
  const CodeEnd := "```"

  /** `content.split("```json")[1].split("```")[0].strip()`. */
  function ExtractJsonBlock(content: string): string
    requires Contains(content, Fence)
  {
    Strip(Before(SecondPiece(content, Fence), CodeEnd))
  }

  /** When `sub` sits at `p` and nowhere earlier, `find` answers `p`. */
  lemma FindFirst(s: string, sub: string, p: nat)
    requires p + |sub| <= |s| && s[p..p + |sub|] == sub
    requires forall j :: 0 <= j < p ==> !IsPrefix(sub, s[j..])
    ensures Contains(s, sub) && Find(s, sub) == Some(p)
  {
    assert s[p..][..|sub|] == s[p..p + |sub|];
    ContainsSuffix(s, p, sub);
    var q := Find(s, sub).value;
    assert s[q..][..|sub|] == s[q..q + |sub|];
  }

  /** A text without backticks holds no "```". */
  lemma {:induction false} NoCodeEnd(t: string)
    requires '`' !in t
    ensures !Contains(t, CodeEnd) && Find(t, CodeEnd) == None
    decreases |t|
  {
    if |t| >= 3 {
      assert t[..3][0] == t[0];
    }
    if |t| > 0 {
      assert forall j :: 0 <= j < |t| - 1 ==> t[1..][j] == t[j + 1];
      NoCodeEnd(t[1..]);
    }
  }

  /** The first "```json" of a reply opens right after a prefix that holds
      none: a "```json" cannot straddle the end of the prefix, since its
      letters cannot stand where the fence's backticks are. */
  lemma FenceAfterPrefix(prefix: string, rest: string)
    requires !Contains(prefix, Fence)
    ensures Contains(prefix + Fence + rest, Fence)
    ensures SecondPiece(prefix + Fence + rest, Fence) == Before(rest, Fence)
  {
    var content := prefix + Fence + rest;
    assert forall i :: 0 <= i < |Fence| ==> content[|prefix| + i] == Fence[i];
    forall j | 0 <= j < |prefix| ensures !IsPrefix(Fence, content[j..]) {
      if j + |Fence| <= |prefix| {
        assert content[j..][..|Fence|] == prefix[j..][..|Fence|];
        NotPrefixAt(prefix, j, Fence);
      } else if |prefix| - j <= 3 {
        assert content[j..][3] == '`' && Fence[3] == 'j';
      } else {
        assert content[j..][|prefix| - j] == '`' && Fence[|prefix| - j] != '`';
      }
    }
    assert content[|prefix|..|prefix| + |Fence|] == Fence;
    FindFirst(content, Fence, |prefix|);
    assert content[|prefix| + |Fence|..] == rest;
  }

  /** A string that does not occur in `s` is a prefix of none of its suffixes. */
  lemma NotPrefixAt(s: string, i: nat, sub: string)
    requires i <= |s| && !Contains(s, sub)
    ensures !IsPrefix(sub, s[i..])
  {
    if IsPrefix(sub, s[i..]) {
      ContainsSuffix(s, i, sub);
    }
  }

  /** After a backtick-free body and its closing "```", a "```json" can only
      start at that closing fence or past it, when the next character is not a
      backtick. */
  lemma FenceOffset(body: string, suffix: string, k: nat)
    requires '`' !in body
    requires suffix == [] || suffix[0] != '`'
    requires k + |Fence| <= |body + CodeEnd + suffix| && (body + CodeEnd + suffix)[k..k + |Fence|] == Fence
    ensures k == |body| || k >= |body| + 3
  {
    var rest := body + CodeEnd + suffix;
    assert rest[k..k + 7][0] == rest[k] && rest[k..k + 7][1] == rest[k + 1] && rest[k..k + 7][2] == rest[k + 2];
    assert forall j :: 0 <= j < |body| ==> rest[j] == body[j];
    assert |suffix| > 0 ==> rest[|body| + 3] == suffix[0];
  }

  /** Up to the next "```json", the text after the opening fence is the body
      alone or starts with the body and its closing "```". */
  lemma PieceAfterBody(body: string, suffix: string)
    requires '`' !in body
    requires suffix == [] || suffix[0] != '`'
    ensures var piece := Before(body + CodeEnd + suffix, Fence);
      piece == body || (|body| + 3 <= |piece| && piece[..|body| + 3] == body + CodeEnd)
  {
    var rest := body + CodeEnd + suffix;
    var piece := Before(rest, Fence);
    assert rest[..|body|] == body && rest[..|body| + 3] == body + CodeEnd;
    if Find(rest, Fence).Some? {
      FenceOffset(body, suffix, Find(rest, Fence).value);
    }
    assert piece == rest[..|piece|];
  }

  /** Cutting such a piece at its first "```" leaves the body. */
  lemma BodyBeforeCodeEnd(body: string, piece: string)
    requires '`' !in body
    requires piece == body || (|body| + 3 <= |piece| && piece[..|body| + 3] == body + CodeEnd)
    ensures Before(piece, CodeEnd) == body
  {
    if piece == body {
      NoCodeEnd(body);
    } else {
      assert piece[|body|..|body| + 3] == CodeEnd;
      forall j | 0 <= j < |body| ensures !IsPrefix(CodeEnd, piece[j..]) {
        assert piece[j..][0] == piece[j] == body[j];
      }
      FindFirst(piece, CodeEnd, |body|);
      assert piece[..|body|] == body;
    }
  }

  /** The answer of a reply written as the prompt asks: free text holding no
      "```json" (inline code in backticks is allowed), then "```json", JSON text
      without backticks, and a closing "```" that is not followed by a fourth
      backtick. The extraction recovers the JSON text, trimmed. */
  lemma ExtractFencedAnswer(prefix: string, body: string, suffix: string)
    requires !Contains(prefix, Fence) && '`' !in body
    requires suffix == [] || suffix[0] != '`'
    ensures Contains(prefix + Fence + body + CodeEnd + suffix, Fence)
    ensures ExtractJsonBlock(prefix + Fence + body + CodeEnd + suffix) == Strip(body)
  {
    var rest := body + CodeEnd + suffix;
    assert prefix + Fence + body + CodeEnd + suffix == prefix + Fence + rest;
    FenceAfterPrefix(prefix, rest);
    PieceAfterBody(body, suffix);
    BodyBeforeCodeEnd(body, Before(rest, Fence));
  }

  // ----- _execute_react_loop -----

  const MaxSteps := 10

  /** One model turn as the loop sees it: the backoff helper raised (the
      exception leaves the loop), or a reply whose text may be None. */
  datatype Turn = TurnRaised(error: string) | Reply(content: Option<string>)

  /** `json.loads` on the extracted text: it raised, or gave a JSON value. */
  datatype Parsed = Malformed | Value(blob: Option<Decision>)

  /** How a turn ends the loop, or None when the loop goes on: no fence in the
      reply, or a fence whose text does not parse. */
  function StepResult(turn: Turn, parse: string -> Parsed): Option<AttemptOutcome> {
    match turn
    case TurnRaised(e) => Some(Raise(e))
    case Reply(c) =>
      var content := OrEmpty(c);
      if Contains(content, Fence) then
        match parse(ExtractJsonBlock(content))
        case Malformed => None
        case Value(b) => Some(Output(b))
      else
        None
  }

  /** The end-of-turn test applied to every turn of the loop. */
  function StepFn(llm: nat -> Turn, parse: string -> Parsed): nat -> Option<AttemptOutcome> {
    (t: nat) => StepResult(llm(t), parse)
  }

  /** The loop's result from step `step` on, given which turns end it; after
      the last step, None. */
  function FirstEnd(ends: nat -> Option<AttemptOutcome>, step: nat): AttemptOutcome
    requires step <= MaxSteps
    decreases MaxSteps - step
  {
    if step == MaxSteps then
      Output(None)
    else
      match ends(step)
      case Some(o) => o
      case None => FirstEnd(ends, step + 1)
  }

  /** The loop ends at the first of the ten steps that ends it, and returns
      None when none does. */
  lemma {:induction false} FirstEndIsFirst(ends: nat -> Option<AttemptOutcome>, step: nat)
    requires step <= MaxSteps
    ensures (forall t :: step <= t < MaxSteps ==> ends(t).None?) ==> FirstEnd(ends, step) == Output(None)
    ensures (exists t :: step <= t < MaxSteps && ends(t).Some?) ==>
      exists s :: step <= s < MaxSteps && ends(s) == Some(FirstEnd(ends, step))
        && forall t :: step <= t < s ==> ends(t).None?
    decreases MaxSteps - step
  {
    if step < MaxSteps && ends(step).None? {
      FirstEndIsFirst(ends, step + 1);
      if t0 :| step <= t0 < MaxSteps && ends(t0).Some? {
        assert step + 1 <= t0;
        var s :| step + 1 <= s < MaxSteps && ends(s) == Some(FirstEnd(ends, step + 1))
          && forall t :: step + 1 <= t < s ==> ends(t).None?;
        assert forall t :: step <= t < s ==> ends(t).None?;
      }
    }
  }

  /** The loop's result from a step that has not run past the last one. */
  lemma FirstEndAt(ends: nat -> Option<AttemptOutcome>, step: nat)
    requires step < MaxSteps
    ensures FirstEnd(ends, step) == if ends(step).Some? then ends(step).value else FirstEnd(ends, step + 1)
  {
  }

  /** `_execute_react_loop`: at most ten model turns; the first turn that
      raises, or whose reply carries a fenced answer that parses, ends it. */
  method ExecuteReactLoop(llm: nat -> Turn, parse: string -> Parsed) returns (outcome: AttemptOutcome, ghost steps: nat)
    ensures outcome == FirstEnd(StepFn(llm, parse), 0)
    ensures 1 <= steps <= MaxSteps
    ensures forall t :: 0 <= t < steps - 1 ==> StepFn(llm, parse)(t).None?
    ensures StepFn(llm, parse)(steps - 1).Some? ==> outcome == StepFn(llm, parse)(steps - 1).value
    ensures StepFn(llm, parse)(steps - 1).Some? || (steps == MaxSteps && outcome == Output(None))
  {
    steps := 0;
    for step := 0 to MaxSteps
      invariant steps == step
      invariant FirstEnd(StepFn(llm, parse), 0) == FirstEnd(StepFn(llm, parse), step)
      invariant forall t :: 0 <= t < step ==> StepFn(llm, parse)(t).None?
    {
      steps := steps + 1;
      var ended := Step(llm, parse, step);
      FirstEndAt(StepFn(llm, parse), step);
      if ended.Some? {
        outcome := ended.value;
        return;
      }
    }
    outcome := Output(None);
  }

  /** The end-of-turn test of `_execute_react_loop` at turn `step`: an error
      raised by the model call propagates; a fenced answer that parses is
      returned. */
  method Step(llm: nat -> Turn, parse: string -> Parsed, step: nat) returns (ended: Option<AttemptOutcome>)
    ensures ended == StepFn(llm, parse)(step)
  {
    var turn := llm(step);
    if turn.TurnRaised? {
      return Some(Raise(turn.error));
    }
    var content := if turn.content.Some? then turn.content.value else "";
    ended := None;
    if Contains(content, Fence) {
      var parsed := parse(ExtractJsonBlock(content));
      if parsed.Value? {
        ended := Some(Output(parsed.blob));
      }
    }
  }
}

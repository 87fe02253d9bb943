/** `CsvAgent.execute_query_with_retry`: drive one agent through a bounded
    number of attempts, retrying the "unparseable LLM output" failure and, on
    the last attempt, asking once more with a simplified question. */
module Retry {
  import opened Py
  import opened Text

  /** The shapes `agent.invoke(...)` can hand back. */
  datatype AgentValue =
    | DictWithOutput(output: string)   // a dict carrying an 'output' key (the value's text)
    | DictWithoutOutput(repr: string)  // any other dict, with its `str()`
    | Str(text: string)                // a plain string
    | Other(repr: string)              // any other object, with its `str()`

  /** An agent, seen only through `invoke`: the outcome of its n-th call
      (counted from 0 within one execution) on a given input text. */
  datatype Agent = Agent(invoke: (nat, string) -> Try<AgentValue>)

  const ParseMarker := "Could not parse LLM output"
  const DefaultMaxRetries: nat := 3

  function SimplifiedQuery(query: string): string {
    "Analise os dados e responda: " + query
  }

  function ParsingGaveUp(filename: string): string {
    "Não foi possível processar a consulta para " + filename + " devido a problemas de parsing do modelo."
  }

  function RetriesExhausted(filename: string, maxRetries: nat): string {
    "Não foi possível processar a consulta para " + filename + " após " + NatToString(maxRetries) + " tentativas."
  }

  /** The text an answer is turned into: the 'output' entry of a dict that has
      one, the string itself, and `str(result)` for anything else. */
  function Normalize(v: AgentValue): string {
    match v
    case DictWithOutput(output) => output
    case DictWithoutOutput(repr) => repr
    case Str(text) => text
    case Other(repr) => repr
  }

  /** The `ValueError` the loop retries: its text carries the parse marker. */
  predicate IsParseFailure(e: PyException) {
    e.isValueError && Contains(e.message, ParseMarker)
  }

  /** An invocation outcome that an attempt other than the last one swallows:
      a parse failure, or an exception that is not a `ValueError`. */
  predicate Swallowed(r: Try<AgentValue>) {
    r.Raise? && (IsParseFailure(r.exc) || !r.exc.isValueError)
  }

  /** What one execution returns or raises, and the inputs it passed to
      `invoke`, in call order (so `|inputs|` is the number of invocations). */
  datatype Execution = Execution(outcome: Try<string>, inputs: seq<string>)

  function Repeat(s: string, n: nat): (r: seq<string>)
    ensures |r| == n && forall i :: 0 <= i < n ==> r[i] == s
  {
    if n == 0 then [] else Repeat(s, n - 1) + [s]
  }

  /** The loop from attempt `attempt` on, after the invocations in `inputs`. */
  function RetryFrom(agent: Agent, query: string, filename: string, maxRetries: nat, attempt: nat, inputs: seq<string>): (x: Execution)
    requires attempt <= maxRetries
    ensures inputs <= x.inputs
    ensures |x.inputs| <= |inputs| + maxRetries - attempt + 1
    decreases maxRetries - attempt
  {
    if attempt == maxRetries then
      Execution(Ok(RetriesExhausted(filename, maxRetries)), inputs)
    else
      var inputs' := inputs + [query];
      match agent.invoke(|inputs|, query)
      case Ok(v) => Execution(Ok(Normalize(v)), inputs')
      case Raise(e) =>
        if e.isValueError then
          if Contains(e.message, ParseMarker) then
            if attempt == maxRetries - 1 then
              var simple := SimplifiedQuery(query);
              match agent.invoke(|inputs'|, simple)
              case Ok(v) => Execution(Ok(Normalize(v)), inputs' + [simple])
              case Raise(_) => Execution(Ok(ParsingGaveUp(filename)), inputs' + [simple])
            else
              RetryFrom(agent, query, filename, maxRetries, attempt + 1, inputs')
          else
            Execution(Raise(e), inputs')
        else if attempt == maxRetries - 1 then
          Execution(Raise(e), inputs')
        else
          RetryFrom(agent, query, filename, maxRetries, attempt + 1, inputs')
  }

  /** The whole execution: `execute_query_with_retry(agent, query, filename, maxRetries)`. */
  function Execute(agent: Agent, query: string, filename: string, maxRetries: nat): Execution {
    RetryFrom(agent, query, filename, maxRetries, 0, [])
  }

  /** The loop as the source runs it. */
  method ExecuteQueryWithRetry(agent: Agent, query: string, filename: string, maxRetries: nat)
    returns (outcome: Try<string>, inputs: seq<string>)
    ensures Execution(outcome, inputs) == Execute(agent, query, filename, maxRetries)
    ensures |inputs| <= maxRetries + 1
  {
    inputs := [];
    for attempt := 0 to maxRetries
      invariant inputs == Repeat(query, attempt)
      invariant RetryFrom(agent, query, filename, maxRetries, attempt, inputs) == Execute(agent, query, filename, maxRetries)
    {
      var result := agent.invoke(|inputs|, query);
      inputs := inputs + [query];
      match result {
        case Ok(v) =>
          outcome := Ok(Normalize(v));
          return;
        case Raise(e) =>
          if e.isValueError {
            if Contains(e.message, ParseMarker) {
              if attempt == maxRetries - 1 {
                var simple := SimplifiedQuery(query);
                var retried := agent.invoke(|inputs|, simple);
                inputs := inputs + [simple];
                match retried {
                  case Ok(v) => outcome := Ok(Normalize(v));
                  case Raise(_) => outcome := Ok(ParsingGaveUp(filename));
                }
                return;
              }
            } else {
              outcome := Raise(e);
              return;
            }
          } else if attempt == maxRetries - 1 {
            outcome := Raise(e);
            return;
          }
      }
    }
    outcome := Ok(RetriesExhausted(filename, maxRetries));
  }

  /** From attempt `a` on, when attempts a..k-1 are all swallowed, the run
      reaches attempt `k` with the primary question repeated k times. */
  lemma {:induction false} SkipSwallowed(agent: Agent, query: string, filename: string, maxRetries: nat, a: nat, k: nat)
    requires a <= k < maxRetries
    requires forall j :: a <= j < k ==> Swallowed(agent.invoke(j, query))
    ensures RetryFrom(agent, query, filename, maxRetries, a, Repeat(query, a))
         == RetryFrom(agent, query, filename, maxRetries, k, Repeat(query, k))
    decreases k - a
  {
    if a < k {
      assert Swallowed(agent.invoke(a, query));
      assert Repeat(query, a) + [query] == Repeat(query, a + 1);
      SkipSwallowed(agent, query, filename, maxRetries, a + 1, k);
    }
  }

  /** Early success: when every attempt before the k-th is swallowed and the
      k-th returns, that reply (normalised) is the answer and nothing more is
      invoked. */
  lemma {:induction false} ReturnsFirstReply(agent: Agent, query: string, filename: string, maxRetries: nat, k: nat)
    requires k < maxRetries
    requires forall j :: 0 <= j < k ==> Swallowed(agent.invoke(j, query))
    requires agent.invoke(k, query).Ok?
    ensures Execute(agent, query, filename, maxRetries)
         == Execution(Ok(Normalize(agent.invoke(k, query).value)), Repeat(query, k + 1))
  {
    SkipSwallowed(agent, query, filename, maxRetries, 0, k);
    assert Repeat(query, k) + [query] == Repeat(query, k + 1);
  }

  /** A `ValueError` without the parse marker is raised on the attempt it
      occurs, with no retry. */
  lemma {:induction false} OtherValueErrorPropagates(agent: Agent, query: string, filename: string, maxRetries: nat, k: nat)
    requires k < maxRetries
    requires forall j :: 0 <= j < k ==> Swallowed(agent.invoke(j, query))
    requires agent.invoke(k, query).Raise?
    requires agent.invoke(k, query).exc.isValueError && !IsParseFailure(agent.invoke(k, query).exc)
    ensures Execute(agent, query, filename, maxRetries)
         == Execution(Raise(agent.invoke(k, query).exc), Repeat(query, k + 1))
  {
    SkipSwallowed(agent, query, filename, maxRetries, 0, k);
    assert Repeat(query, k) + [query] == Repeat(query, k + 1);
  }

  /** An exception other than a `ValueError` is swallowed on every attempt but
      the last; on the last it is raised. */
  lemma {:induction false} OtherErrorRaisedOnLastAttempt(agent: Agent, query: string, filename: string, maxRetries: nat)
    requires maxRetries >= 1
    requires forall j :: 0 <= j < maxRetries - 1 ==> Swallowed(agent.invoke(j, query))
    requires agent.invoke(maxRetries - 1, query).Raise? && !agent.invoke(maxRetries - 1, query).exc.isValueError
    ensures Execute(agent, query, filename, maxRetries)
         == Execution(Raise(agent.invoke(maxRetries - 1, query).exc), Repeat(query, maxRetries))
  {
    SkipSwallowed(agent, query, filename, maxRetries, 0, maxRetries - 1);
    assert Repeat(query, maxRetries - 1) + [query] == Repeat(query, maxRetries);
  }

  /** Retry termination: when every primary attempt fails to parse, the agent
      is invoked exactly maxRetries + 1 times, the last time with the
      simplified question, and the execution returns (never raises): the
      reply to the simplified question, or the give-up message. */
  lemma {:induction false} ParseFailuresEndInSimplifiedQuery(agent: Agent, query: string, filename: string, maxRetries: nat)
    requires maxRetries >= 1
    requires forall j :: 0 <= j < maxRetries ==>
      agent.invoke(j, query).Raise? && IsParseFailure(agent.invoke(j, query).exc)
    ensures var x := Execute(agent, query, filename, maxRetries);
      && x.inputs == Repeat(query, maxRetries) + [SimplifiedQuery(query)]
      && x.outcome.Ok?
      && x.outcome.value == match agent.invoke(maxRetries, SimplifiedQuery(query))
                            case Ok(v) => Normalize(v)
                            case Raise(_) => ParsingGaveUp(filename)
  {
    forall j | 0 <= j < maxRetries - 1 ensures Swallowed(agent.invoke(j, query)) {
    }
    SkipSwallowed(agent, query, filename, maxRetries, 0, maxRetries - 1);
    assert Repeat(query, maxRetries - 1) + [query] == Repeat(query, maxRetries);
  }

  /** The same run when every invocation, simplified or not, fails to parse:
      the give-up message after exactly maxRetries + 1 invocations. */
  lemma {:induction false} AlwaysUnparseable(agent: Agent, query: string, filename: string, maxRetries: nat)
    requires maxRetries >= 1
    requires forall j, q :: agent.invoke(j, q).Raise? && IsParseFailure(agent.invoke(j, q).exc)
    ensures Execute(agent, query, filename, maxRetries)
         == Execution(Ok(ParsingGaveUp(filename)), Repeat(query, maxRetries) + [SimplifiedQuery(query)])
  {
    ParseFailuresEndInSimplifiedQuery(agent, query, filename, maxRetries);
  }

  /** The shape of a run that made more than `made` invocations: each
      invocation but the last raised; a raised exception is the last
      invocation's; a returned text is the last reply normalised, or the
      give-up message. */
  ghost predicate Shaped(agent: Agent, filename: string, made: nat, x: Execution) {
    var n := |x.inputs|;
    && n > made
    && (forall j :: 0 <= j < n - 1 ==> agent.invoke(j, x.inputs[j]).Raise?)
    && (x.outcome.Raise? ==> agent.invoke(n - 1, x.inputs[n - 1]) == Raise(x.outcome.exc))
    && (x.outcome.Ok? ==>
          (agent.invoke(n - 1, x.inputs[n - 1]).Ok? && x.outcome.value == Normalize(agent.invoke(n - 1, x.inputs[n - 1]).value))
          || x.outcome.value == ParsingGaveUp(filename))
  }

  /** A parse failure on the last attempt: the simplified question is the
      last invocation, and its reply or the give-up text is returned. */
  lemma SimplifiedShape(agent: Agent, query: string, filename: string, maxRetries: nat, inputs: seq<string>)
    requires maxRetries >= 1
    requires forall j :: 0 <= j < |inputs| ==> agent.invoke(j, inputs[j]).Raise?
    requires agent.invoke(|inputs|, query).Raise?
    requires IsParseFailure(agent.invoke(|inputs|, query).exc)
    ensures Shaped(agent, filename, |inputs|, RetryFrom(agent, query, filename, maxRetries, maxRetries - 1, inputs))
  {
    var x := RetryFrom(agent, query, filename, maxRetries, maxRetries - 1, inputs);
    var inputs' := inputs + [query];
    var simple := SimplifiedQuery(query);
    var last := agent.invoke(|inputs'|, simple);
    assert x.inputs == inputs' + [simple];
    assert forall j :: 0 <= j < |inputs| ==> x.inputs[j] == inputs[j];
    assert x.inputs[|inputs|] == query && x.inputs[|inputs| + 1] == simple;
    if last.Ok? {
      assert x.outcome == Ok(Normalize(last.value));
    } else {
      assert x.outcome == Ok(ParsingGaveUp(filename));
    }
  }

  /** The shape of every run from attempt `a` on (generalises ExecutionShape). */
  lemma {:induction false} ShapeFrom(agent: Agent, query: string, filename: string, maxRetries: nat, a: nat, inputs: seq<string>)
    requires a < maxRetries
    requires forall j :: 0 <= j < |inputs| ==> agent.invoke(j, inputs[j]).Raise?
    ensures Shaped(agent, filename, |inputs|, RetryFrom(agent, query, filename, maxRetries, a, inputs))
    decreases maxRetries - a
  {
    var x := RetryFrom(agent, query, filename, maxRetries, a, inputs);
    var inputs' := inputs + [query];
    var r := agent.invoke(|inputs|, query);
    assert forall j :: 0 <= j < |inputs| ==> inputs'[j] == inputs[j];
    if r.Ok? {
      assert x == Execution(Ok(Normalize(r.value)), inputs');
      assert Shaped(agent, filename, |inputs|, x);
    } else if r.exc.isValueError {
      if !Contains(r.exc.message, ParseMarker) {
        assert x == Execution(Raise(r.exc), inputs');
        assert Shaped(agent, filename, |inputs|, x);
      } else if a == maxRetries - 1 {
        SimplifiedShape(agent, query, filename, maxRetries, inputs);
      } else {
        assert x == RetryFrom(agent, query, filename, maxRetries, a + 1, inputs');
        ShapeFrom(agent, query, filename, maxRetries, a + 1, inputs');
      }
    } else if a == maxRetries - 1 {
      assert x == Execution(Raise(r.exc), inputs');
      assert Shaped(agent, filename, |inputs|, x);
    } else {
      assert x == RetryFrom(agent, query, filename, maxRetries, a + 1, inputs');
      ShapeFrom(agent, query, filename, maxRetries, a + 1, inputs');
    }
  }

  /** What every run with at least one attempt looks like: each invocation but
      the last raised; a raised exception is the last invocation's; a returned
      text is the last reply normalised, or the give-up message. So the
      "after N attempts" message is never produced once maxRetries >= 1. */
  lemma ExecutionShape(agent: Agent, query: string, filename: string, maxRetries: nat)
    requires maxRetries >= 1
    ensures var x := Execute(agent, query, filename, maxRetries);
      var n := |x.inputs|;
      && 1 <= n <= maxRetries + 1
      && (forall j :: 0 <= j < n - 1 ==> agent.invoke(j, x.inputs[j]).Raise?)
      && (x.outcome.Raise? ==> agent.invoke(n - 1, x.inputs[n - 1]) == Raise(x.outcome.exc))
      && (x.outcome.Ok? ==>
            (agent.invoke(n - 1, x.inputs[n - 1]).Ok? && x.outcome.value == Normalize(agent.invoke(n - 1, x.inputs[n - 1]).value))
            || x.outcome.value == ParsingGaveUp(filename))
  {
    ShapeFrom(agent, query, filename, maxRetries, 0, []);
    assert Shaped(agent, filename, 0, Execute(agent, query, filename, maxRetries));
  }

  /** From any attempt on, the loop never raises a parse failure. */
  lemma {:induction false} ParseFailureNeverRaisedFrom(agent: Agent, query: string, filename: string, maxRetries: nat,
                                                       attempt: nat, inputs: seq<string>)
    requires attempt <= maxRetries
    ensures var x := RetryFrom(agent, query, filename, maxRetries, attempt, inputs);
      x.outcome.Raise? ==> !IsParseFailure(x.outcome.exc)
    decreases maxRetries - attempt
  {
    if attempt < maxRetries {
      ParseFailureNeverRaisedFrom(agent, query, filename, maxRetries, attempt + 1, inputs + [query]);
    }
  }

  /** A `ValueError` carrying the parse marker never leaves the execution: it
      is retried, or answered by the simplified question or the give-up text.
      What is raised is a `ValueError` without the marker, or another
      exception on the last attempt. */
  lemma ParseFailureNeverRaised(agent: Agent, query: string, filename: string, maxRetries: nat)
    ensures var x := Execute(agent, query, filename, maxRetries);
      x.outcome.Raise? ==> !x.outcome.exc.isValueError || !Contains(x.outcome.exc.message, ParseMarker)
  {
    ParseFailureNeverRaisedFrom(agent, query, filename, maxRetries, 0, []);
  }

  /** With no attempts allowed the loop body never runs and the method
      returns the "after N attempts" message without invoking the agent. */
  lemma NoAttemptsAllowed(agent: Agent, query: string, filename: string)
    ensures Execute(agent, query, filename, 0) == Execution(Ok(RetriesExhausted(filename, 0)), [])
  {
  }
}

/** The `CsvAgent` class: its registry of loaded datasets (`_load_csvs`) and
    the query pipeline `process_query` (credential guard, model choice,
    connection fallback, agent construction, execution with retry,
    classification of failures, composite report). */
module CsvAgents {
  import opened Py
  import opened Text
  import opened Retry
  import opened Connection
  import opened Factory
  import opened Aggregation

  // ---------------------------------------------------------------------
  // The dataset registry
  // ---------------------------------------------------------------------

  /** What `pd.read_csv` does with one file: a DataFrame, a decoding or parser
      error (logged, the file is skipped), or any other exception, which
      propagates out of the loading loop. */
  datatype ReadOutcome =
    | Parsed(frame: Df)
    | Unreadable(message: string)
    | ReadCrashed(exc: PyException)

  /** The registry as a Python dict: keys in insertion order plus the mapping. */
  ghost predicate Consistent(names: seq<string>, frames: map<string, Df>) {
    && (forall i, j :: 0 <= i < j < |names| ==> names[i] != names[j])
    && (forall n :: n in names <==> n in frames)
  }

  /** The registry after a load, and the exception that stopped it, if any. */
  datatype Loaded = Loaded(names: seq<string>, frames: map<string, Df>, raised: Option<PyException>)

  /** The loading loop over a directory listing (`os.listdir` order): only
      names ending in ".csv" are read; a parsed file sets or overwrites its
      entry, keeping the key's first insertion position. */
  function LoadFrom(names: seq<string>, frames: map<string, Df>, listing: seq<string>, read: string -> ReadOutcome): Loaded
    decreases |listing|
  {
    if |listing| == 0 then Loaded(names, frames, None)
    else
      var file := listing[0];
      if !EndsWith(file, ".csv") then LoadFrom(names, frames, listing[1..], read)
      else match read(file)
        case Parsed(df) =>
          LoadFrom(if file in frames then names else names + [file], frames[file := df], listing[1..], read)
        case Unreadable(_) => LoadFrom(names, frames, listing[1..], read)
        case ReadCrashed(e) => Loaded(names, frames, Some(e))
  }

  /** What a load does to the registry: no key is removed and the old keys
      keep their order; every entry afterwards is an untouched old one or a
      ".csv" file of the listing whose read parsed; the dict stays consistent;
      the load stops only on an exception a ".csv" read raised. */
  lemma {:induction false} LoadEffect(names: seq<string>, frames: map<string, Df>, listing: seq<string>, read: string -> ReadOutcome)
    requires Consistent(names, frames)
    ensures var l := LoadFrom(names, frames, listing, read);
      && Consistent(l.names, l.frames)
      && names <= l.names
      && frames.Keys <= l.frames.Keys
      && (forall k :: k in l.frames ==>
            (k in frames && l.frames[k] == frames[k])
            || (k in listing && EndsWith(k, ".csv") && read(k) == Parsed(l.frames[k])))
      && (l.raised.Some? ==> exists k :: k in listing && EndsWith(k, ".csv") && read(k) == ReadCrashed(l.raised.value))
    decreases |listing|
  {
    if |listing| > 0 {
      var file := listing[0];
      var rest := listing[1..];
      assert forall k :: k in rest ==> k in listing;
      if EndsWith(file, ".csv") && read(file).Parsed? {
        var names' := if file in frames then names else names + [file];
        var frames' := frames[file := read(file).frame];
        assert Consistent(names', frames') by {
          if file !in frames {
            assert file !in names;
          }
        }
        LoadEffect(names', frames', rest, read);
      } else if !(EndsWith(file, ".csv") && read(file).ReadCrashed?) {
        LoadEffect(names, frames, rest, read);
      }
    }
  }

  /** A load that runs to the end leaves every parsed ".csv" file of the
      listing in the registry, mapped to the DataFrame its read produced. */
  lemma {:induction false} LoadStoresParsed(names: seq<string>, frames: map<string, Df>, listing: seq<string>, read: string -> ReadOutcome)
    ensures var l := LoadFrom(names, frames, listing, read);
      l.raised.None? ==>
        forall k :: k in listing && EndsWith(k, ".csv") && read(k).Parsed? ==> k in l.frames && l.frames[k] == read(k).frame
    decreases |listing|
  {
    if |listing| > 0 {
      var file := listing[0];
      var rest := listing[1..];
      assert forall k :: k in listing ==> k == file || k in rest;
      if EndsWith(file, ".csv") && read(file).Parsed? {
        var names' := if file in frames then names else names + [file];
        var frames' := frames[file := read(file).frame];
        LoadStoresParsed(names', frames', rest, read);
        LoadKeepsEntry(names', frames', rest, read, file);
      } else {
        LoadStoresParsed(names, frames, rest, read);
      }
    }
  }

  /** An entry is only ever replaced by a later parse of the same file, and
      reading a file again gives the same outcome, so its value survives. */
  lemma {:induction false} LoadKeepsEntry(names: seq<string>, frames: map<string, Df>, listing: seq<string>, read: string -> ReadOutcome, k: string)
    requires k in frames && (EndsWith(k, ".csv") && read(k).Parsed? ==> frames[k] == read(k).frame)
    ensures var l := LoadFrom(names, frames, listing, read);
      k in l.frames && (EndsWith(k, ".csv") && read(k).Parsed? ==> l.frames[k] == read(k).frame)
    decreases |listing|
  {
    if |listing| > 0 {
      var file := listing[0];
      if EndsWith(file, ".csv") && read(file).Parsed? {
        var names' := if file in frames then names else names + [file];
        LoadKeepsEntry(names', frames[file := read(file).frame], listing[1..], read, k);
      } else if !(EndsWith(file, ".csv") && read(file).ReadCrashed?) {
        LoadKeepsEntry(names, frames, listing[1..], read, k);
      }
    }
  }

  /** A file that is not yet registered and whose read fails adds no entry. */
  lemma UnreadableFileAddsNoEntry(names: seq<string>, frames: map<string, Df>, listing: seq<string>, read: string -> ReadOutcome, file: string)
    requires Consistent(names, frames)
    requires file !in frames && !read(file).Parsed?
    ensures file !in LoadFrom(names, frames, listing, read).frames
  {
    LoadEffect(names, frames, listing, read);
  }

  /** The registry's entries as `dataframes.items()` yields them: one
      (name, DataFrame) pair per key, each key once, in insertion order. */
  function ItemsOf(names: seq<string>, frames: map<string, Df>): (items: seq<(string, Df)>)
    requires Consistent(names, frames)
    ensures |items| == |names| == |frames|
    ensures forall k :: k in frames ==> exists i :: 0 <= i < |items| && items[i] == (k, frames[k])
    ensures forall i, j :: 0 <= i < j < |items| ==> items[i].0 != items[j].0
    ensures forall i :: 0 <= i < |items| ==> items[i].0 in frames && items[i].1 == frames[items[i].0]
    ensures forall i :: 0 <= i < |items| ==> items[i].0 == names[i]
  {
    KeysCounted(names, frames);
    var items := seq(|names|, i requires 0 <= i < |names| => (names[i], frames[names[i]]));
    assert forall k :: k in frames ==> exists i :: 0 <= i < |items| && items[i] == (k, frames[k]) by {
      forall k | k in frames
        ensures exists i :: 0 <= i < |items| && items[i] == (k, frames[k])
      {
        var i :| 0 <= i < |names| && names[i] == k;
        assert items[i] == (k, frames[k]);
      }
    }
    items
  }

  /** A consistent dict has as many keys as its insertion order has names. */
  lemma {:induction false} KeysCounted(names: seq<string>, frames: map<string, Df>)
    requires Consistent(names, frames)
    ensures |names| == |frames|
    decreases |names|
  {
    if |names| > 0 {
      var last := names[|names| - 1];
      var rest := names[..|names| - 1];
      var smaller := frames - {last};
      DropLast(names, frames);
      KeysCounted(rest, smaller);
      assert last in frames;
      assert frames.Keys == smaller.Keys + {last};
      assert |frames.Keys| == |smaller.Keys| + 1;
    } else {
      assert frames.Keys == {};
    }
  }

  /** Removing the newest key from both halves of the registry keeps it consistent. */
  lemma DropLast(names: seq<string>, frames: map<string, Df>)
    requires Consistent(names, frames) && |names| > 0
    ensures Consistent(names[..|names| - 1], frames - {names[|names| - 1]})
  {
    var last := names[|names| - 1];
    var rest := names[..|names| - 1];
    var smaller := frames - {last};
    assert names == rest + [last];
    forall i | 0 <= i < |rest|
      ensures rest[i] != last
    {
      assert rest[i] == names[i];
    }
    forall n
      ensures n in rest <==> n in smaller
    {
      assert n in names <==> n in rest || n == last;
    }
  }


  // ---------------------------------------------------------------------
  // Running the question against every agent
  // ---------------------------------------------------------------------

  /** The answers, labelled by file, and the error lines, both in file order. */
  datatype Collected = Collected(results: seq<(string, string)>, errors: seq<string>)

  /** What `execute_query_with_retry` (default of three attempts) gives for one file. */
  function Outcome(entry: (string, Built), query: string): Try<string> {
    Execute(entry.1.agent, query, entry.0, DefaultMaxRetries).outcome
  }

  /** The second loop of `process_query`: an answer is recorded as a result,
      an exception as exactly one classified error line. */
  function Collect(agents: seq<(string, Built)>, query: string): (c: Collected)
    ensures |c.results| + |c.errors| == |agents|
    decreases |agents|
  {
    if |agents| == 0 then Collected([], [])
    else
      var rest := Collect(agents[1..], query);
      match Outcome(agents[0], query)
      case Ok(answer) => Collected([(agents[0].0, answer)] + rest.results, rest.errors)
      case Raise(e) => Collected(rest.results, [ErrorLine(agents[0].0, e)] + rest.errors)
  }

  /** What each file's execution gives, in the agents' order. */
  function Outcomes(agents: seq<(string, Built)>, query: string): (os: seq<Try<string>>)
    ensures |os| == |agents|
    ensures forall i :: 0 <= i < |agents| ==> os[i] == Outcome(agents[i], query)
  {
    seq(|agents|, i requires 0 <= i < |agents| => Outcome(agents[i], query))
  }

  /** The positions, from `from` on and in increasing order, of the outcomes
      that are answers (`answered`) or exceptions (`!answered`). */
  ghost function Positions(os: seq<Try<string>>, from: nat, answered: bool): (p: seq<nat>)
    requires from <= |os|
    ensures forall k :: 0 <= k < |p| ==> from <= p[k] < |os| && os[p[k]].Ok? == answered
    ensures forall k, l :: 0 <= k < l < |p| ==> p[k] < p[l]
    ensures forall i :: from <= i < |os| && os[i].Ok? == answered ==> i in p
    decreases |os| - from
  {
    if from == |os| then []
    else (if os[from].Ok? == answered then [from] else []) + Positions(os, from + 1, answered)
  }

  /** One step of the collection loop: the first file's outcome goes in
      front of what the rest collects. */
  lemma CollectStep(agents: seq<(string, Built)>, query: string, o: Try<string>)
    requires |agents| > 0 && o == Outcome(agents[0], query)
    ensures o.Ok? ==>
      Collect(agents, query)
        == Collected([(agents[0].0, o.value)] + Collect(agents[1..], query).results, Collect(agents[1..], query).errors)
    ensures o.Raise? ==>
      Collect(agents, query)
        == Collected(Collect(agents[1..], query).results, [ErrorLine(agents[0].0, o.exc)] + Collect(agents[1..], query).errors)
  {
  }

  /** The result recorded for the i-th file when its execution returned. */
  function Labelled(agents: seq<(string, Built)>, os: seq<Try<string>>, i: nat): (string, string)
    requires i < |agents| && i < |os| && os[i].Ok?
  {
    (agents[i].0, os[i].value)
  }

  /** Putting the first answer in front of the later ones keeps each result
      next to its position. */
  lemma LabelledPrepend(agents: seq<(string, Built)>, os: seq<Try<string>>, from: nat, rest: seq<(string, string)>, p': seq<nat>)
    requires from < |agents| && |os| == |agents| && os[from].Ok?
    requires |rest| == |p'|
    requires forall k :: 0 <= k < |p'| ==> p'[k] < |agents| && os[p'[k]].Ok? && rest[k] == Labelled(agents, os, p'[k])
    ensures var r := [Labelled(agents, os, from)] + rest;
      var p := [from] + p';
      forall k :: 0 <= k < |p| ==> r[k] == Labelled(agents, os, p[k])
  {
  }

  /** Collection keeps the agents' order for the answers: the k-th result
      is the answer of the k-th file (from `from` on) that answered. */
  lemma {:induction false} ResultsInOrderFrom(agents: seq<(string, Built)>, query: string, os: seq<Try<string>>, from: nat)
    requires os == Outcomes(agents, query) && from <= |agents|
    ensures var r := Collect(agents[from..], query).results;
      var p := Positions(os, from, true);
      && |r| == |p|
      && forall k :: 0 <= k < |p| ==> r[k] == Labelled(agents, os, p[k])
    decreases |agents| - from
  {
    if from < |agents| {
      var tail := agents[from..];
      assert tail[1..] == agents[from + 1..];
      assert tail[0] == agents[from];
      var o := os[from];
      CollectStep(tail, query, o);
      ResultsInOrderFrom(agents, query, os, from + 1);
      var rest := Collect(agents[from + 1..], query).results;
      var p' := Positions(os, from + 1, true);
      var r := Collect(tail, query).results;
      var p := Positions(os, from, true);
      if o.Ok? {
        assert r == [Labelled(agents, os, from)] + rest;
        assert p == [from] + p';
        LabelledPrepend(agents, os, from, rest, p');
      } else {
        assert r == rest && p == p';
      }
    }
  }

  /** The same for the failures: the k-th error line is the classified
      exception of the k-th file (from `from` on) that failed. */
  lemma {:induction false} ErrorsInOrderFrom(agents: seq<(string, Built)>, query: string, os: seq<Try<string>>, from: nat)
    requires os == Outcomes(agents, query) && from <= |agents|
    ensures var e := Collect(agents[from..], query).errors;
      var q := Positions(os, from, false);
      && |e| == |q|
      && forall k :: 0 <= k < |q| ==> e[k] == ErrorLine(agents[q[k]].0, os[q[k]].exc)
    decreases |agents| - from
  {
    if from < |agents| {
      var tail := agents[from..];
      assert tail[1..] == agents[from + 1..];
      assert tail[0] == agents[from];
      var o := os[from];
      CollectStep(tail, query, o);
      ErrorsInOrderFrom(agents, query, os, from + 1);
      var rest := Collect(agents[from + 1..], query).errors;
      var q' := Positions(os, from + 1, false);
      var e := Collect(tail, query).errors;
      var q := Positions(os, from, false);
      if o.Raise? {
        assert e == [ErrorLine(agents[from].0, o.exc)] + rest;
        assert q == [from] + q';
        forall k | 0 <= k < |q|
          ensures e[k] == ErrorLine(agents[q[k]].0, os[q[k]].exc)
        {
          if k > 0 {
            assert e[k] == rest[k - 1] && q[k] == q'[k - 1];
          }
        }
      } else {
        assert e == rest && q == q';
      }
    }
  }

  /** Collection keeps the agents' order: the k-th result is the answer of
      the k-th file that answered, and the k-th error line is the classified
      exception of the k-th file that failed. */
  lemma CollectInOrder(agents: seq<(string, Built)>, query: string)
    ensures var c := Collect(agents, query);
      var os := Outcomes(agents, query);
      var p := Positions(os, 0, true);
      var q := Positions(os, 0, false);
      && |c.results| == |p| && |c.errors| == |q|
      && (forall k :: 0 <= k < |p| ==> c.results[k] == (agents[p[k]].0, Outcome(agents[p[k]], query).value))
      && (forall k :: 0 <= k < |q| ==> c.errors[k] == ErrorLine(agents[q[k]].0, Outcome(agents[q[k]], query).exc))
  {
    var os := Outcomes(agents, query);
    ResultsInOrderFrom(agents, query, os, 0);
    ErrorsInOrderFrom(agents, query, os, 0);
    assert agents[0..] == agents;
  }

  /** `result` is the answer of some file's execution. */
  ghost predicate AnswerOf(agents: seq<(string, Built)>, query: string, result: (string, string)) {
    exists i :: 0 <= i < |agents| && agents[i].0 == result.0 && Outcome(agents[i], query) == Ok(result.1)
  }

  /** Every recorded answer is the answer its file's execution returned. */
  lemma {:induction false} ResultsAreAnswers(agents: seq<(string, Built)>, query: string)
    ensures forall x :: x in Collect(agents, query).results ==> AnswerOf(agents, query, x)
    decreases |agents|
  {
    if |agents| > 0 {
      var rest := agents[1..];
      ResultsAreAnswers(rest, query);
      forall x | x in Collect(agents, query).results ensures AnswerOf(agents, query, x) {
        if x in Collect(rest, query).results {
          var i :| 0 <= i < |rest| && rest[i].0 == x.0 && Outcome(rest[i], query) == Ok(x.1);
          assert agents[i + 1] == rest[i];
        } else {
          assert agents[0].0 == x.0 && Outcome(agents[0], query) == Ok(x.1);
        }
      }
    }
  }

  /** Every file whose execution returned has its answer among the results. */
  lemma {:induction false} AnswersAreResults(agents: seq<(string, Built)>, query: string)
    ensures forall i :: 0 <= i < |agents| && Outcome(agents[i], query).Ok? ==>
      (agents[i].0, Outcome(agents[i], query).value) in Collect(agents, query).results
    decreases |agents|
  {
    if |agents| > 0 {
      var rest := agents[1..];
      AnswersAreResults(rest, query);
      forall i | 1 <= i < |agents| ensures agents[i] == rest[i - 1] {
      }
    }
  }

  /** `line` is the classified error line of some file whose execution raised. */
  ghost predicate FailureOf(agents: seq<(string, Built)>, query: string, line: string) {
    exists i :: 0 <= i < |agents| && Outcome(agents[i], query).Raise?
      && line == ErrorLine(agents[i].0, Outcome(agents[i], query).exc)
  }

  /** Every error line is the classified exception of a file whose execution raised. */
  lemma {:induction false} ErrorsAreFailures(agents: seq<(string, Built)>, query: string)
    ensures forall line :: line in Collect(agents, query).errors ==> FailureOf(agents, query, line)
    decreases |agents|
  {
    if |agents| > 0 {
      var rest := agents[1..];
      ErrorsAreFailures(rest, query);
      forall line | line in Collect(agents, query).errors ensures FailureOf(agents, query, line) {
        if line in Collect(rest, query).errors {
          var i :| 0 <= i < |rest| && Outcome(rest[i], query).Raise?
            && line == ErrorLine(rest[i].0, Outcome(rest[i], query).exc);
          assert agents[i + 1] == rest[i];
        } else {
          assert Outcome(agents[0], query).Raise?;
        }
      }
    }
  }

  /** Every file whose execution raised has its classified error line. */
  lemma {:induction false} FailuresHaveErrorLines(agents: seq<(string, Built)>, query: string)
    ensures forall i :: 0 <= i < |agents| && Outcome(agents[i], query).Raise? ==>
      ErrorLine(agents[i].0, Outcome(agents[i], query).exc) in Collect(agents, query).errors
    decreases |agents|
  {
    if |agents| > 0 {
      var rest := agents[1..];
      FailuresHaveErrorLines(rest, query);
      forall i | 1 <= i < |agents| ensures agents[i] == rest[i - 1] {
      }
    }
  }

  /** One iteration of the second loop: the i-th file's outcome joins what
      the earlier files collected. */
  lemma CollectAdvance(agents: seq<(string, Built)>, query: string, i: nat, results: seq<(string, string)>, errors: seq<string>, o: Try<string>)
    requires i < |agents| && o == Outcome(agents[i], query)
    requires Collect(agents, query)
          == Collected(results + Collect(agents[i..], query).results, errors + Collect(agents[i..], query).errors)
    ensures o.Ok? ==>
      Collect(agents, query)
        == Collected(results + [(agents[i].0, o.value)] + Collect(agents[i + 1..], query).results,
                     errors + Collect(agents[i + 1..], query).errors)
    ensures o.Raise? ==>
      Collect(agents, query)
        == Collected(results + Collect(agents[i + 1..], query).results,
                     errors + [ErrorLine(agents[i].0, o.exc)] + Collect(agents[i + 1..], query).errors)
  {
    assert agents[i..][1..] == agents[i + 1..];
    assert agents[i..][0] == agents[i];
    CollectStep(agents[i..], query, o);
    var rest := Collect(agents[i + 1..], query);
    if o.Ok? {
      assert results + ([(agents[i].0, o.value)] + rest.results) == results + [(agents[i].0, o.value)] + rest.results;
    } else {
      assert errors + ([ErrorLine(agents[i].0, o.exc)] + rest.errors) == errors + [ErrorLine(agents[i].0, o.exc)] + rest.errors;
    }
  }

  /** The second loop as the source runs it. */
  method RunQueries(agents: seq<(string, Built)>, query: string) returns (c: Collected)
    ensures c == Collect(agents, query)
  {
    var results: seq<(string, string)> := [];
    var errors: seq<string> := [];
    for i := 0 to |agents|
      invariant Collect(agents, query)
             == Collected(results + Collect(agents[i..], query).results, errors + Collect(agents[i..], query).errors)
    {
      var file := agents[i].0;
      var outcome, _ := ExecuteQueryWithRetry(agents[i].1.agent, query, file, DefaultMaxRetries);
      CollectAdvance(agents, query, i, results, errors, outcome);
      match outcome {
        case Ok(answer) =>
          results := results + [(file, answer)];
        case Raise(e) =>
          errors := errors + [ErrorLine(file, e)];
      }
    }
    assert agents[|agents|..] == [];
    c := Collected(results, errors);
  }

  // ---------------------------------------------------------------------
  // process_query
  // ---------------------------------------------------------------------

  const CredentialsMissing := "Erro: " +
    "Variáveis de ambiente OPENAI_API_KEY e OPENAI_API_BASE não estão definidas. Configure-as e reinicie o aplicativo."
  const NoModelConfigured := "Erro: " +
    "Não foi possível configurar nenhum modelo de linguagem. Verifique sua conexão e chave API."

  function AgentCreationFailed(file: string, e: PyException): string {
    "Erro ao criar agente para " + file + ": " + e.message
  }

  /** The collaborators `process_query` reaches: whether `OpenAI(...)` builds
      a client for a model identifier, and `create_pandas_dataframe_agent`. */
  datatype Backend = Backend(connect: string -> bool, construct: Constructor)

  /** The returned text, and how far the call got: the number of client
      constructions attempted, of files whose agent construction was
      attempted, and of files whose question was executed. */
  datatype Run = Run(report: string, connections: nat, agentFiles: nat, queriedFiles: nat)

  /** `process_query(query, model)` over the registry's entries `items`. */
  function ProcessQuerySpec(apiKey: Option<string>, apiBase: Option<string>, items: seq<(string, Df)>,
                            query: string, model: Option<string>, backend: Backend): (run: Run)
    ensures !Truthy(apiKey) || !Truthy(apiBase) ==> run == Run(CredentialsMissing, 0, 0, 0)
    ensures Truthy(apiKey) && Truthy(apiBase) ==> 1 <= run.connections <= 4
    ensures run.queriedFiles > 0 ==> run.queriedFiles == run.agentFiles == |items|
  {
    if !Truthy(apiKey) || !Truthy(apiBase) then Run(CredentialsMissing, 0, 0, 0)
    else
      var candidates := ModelsToTry(FindAvailableModel(model));
      match FirstConnectable(candidates, backend.connect)
      case None => Run(NoModelConfigured, |candidates|, 0, 0)
      case Some(i) =>
        var used := candidates[i];
        match BuildAll(backend.construct, used, items)
        case BuildFailed(file, e, attempted) => Run(AgentCreationFailed(file, e), i + 1, attempted, 0)
        case AllBuilt(agents) =>
          var c := Collect(agents, query);
          Run(Report(used, c.results, c.errors), i + 1, |items|, |items|)
  }

  /** Connection fallback: with credentials set, the candidates are the chosen
      model and three fixed fallbacks; the first whose client builds is used
      after exactly as many attempts as its position; when none builds, the
      call gives the "no model" error and constructs no agent. */
  lemma ConnectionFallback(apiKey: Option<string>, apiBase: Option<string>, items: seq<(string, Df)>,
                           query: string, model: Option<string>, backend: Backend)
    requires Truthy(apiKey) && Truthy(apiBase)
    ensures var run := ProcessQuerySpec(apiKey, apiBase, items, query, model, backend);
      var candidates := ModelsToTry(FindAvailableModel(model));
      && (forall j :: 0 <= j < run.connections - 1 ==> !backend.connect(candidates[j]))
      && (run.agentFiles > 0 ==> backend.connect(candidates[run.connections - 1]))
      && ((forall j :: 0 <= j < 4 ==> !backend.connect(candidates[j])) <==>
            run == Run(NoModelConfigured, 4, 0, 0))
  {
  }

  /** One failed agent construction aborts the whole call: the reply names
      the first file whose two constructions both failed and the second
      error's text, and no question is executed at all. */
  lemma AgentFailureAborts(apiKey: Option<string>, apiBase: Option<string>, items: seq<(string, Df)>,
                           query: string, model: Option<string>, backend: Backend, k: nat)
    requires Truthy(apiKey) && Truthy(apiBase)
    requires FirstConnectable(ModelsToTry(FindAvailableModel(model)), backend.connect).Some?
    requires k < |items|
    requires var used := ModelsToTry(FindAvailableModel(model))[FirstConnectable(ModelsToTry(FindAvailableModel(model)), backend.connect).value];
      && CreateAgentWithFallback(backend.construct, used, items[k].1).result.Raise?
      && forall j :: 0 <= j < k ==> CreateAgentWithFallback(backend.construct, used, items[j].1).result.Ok?
    ensures var run := ProcessQuerySpec(apiKey, apiBase, items, query, model, backend);
      var used := ModelsToTry(FindAvailableModel(model))[FirstConnectable(ModelsToTry(FindAvailableModel(model)), backend.connect).value];
      && run.report == AgentCreationFailed(items[k].0, backend.construct(used, items[k].1, false).exc)
      && run.agentFiles == k + 1
      && run.queriedFiles == 0
  {
  }

  /** With no dataset loaded the call succeeds with the header alone. */
  lemma NoDatasetsHeaderOnly(apiKey: Option<string>, apiBase: Option<string>, query: string, model: Option<string>, backend: Backend)
    requires Truthy(apiKey) && Truthy(apiBase)
    requires FirstConnectable(ModelsToTry(FindAvailableModel(model)), backend.connect).Some?
    ensures var candidates := ModelsToTry(FindAvailableModel(model));
      ProcessQuerySpec(apiKey, apiBase, [], query, model, backend).report
        == Header(candidates[FirstConnectable(candidates, backend.connect).value])
  {
  }

  /** Success dominance: once every agent is built, one answered file makes
      the report success-shaped, headed by the model actually used and
      holding that file's block, whatever the other files did. */
  lemma SuccessDominates(agents: seq<(string, Built)>, used: string, query: string, i: nat)
    requires i < |agents| && Outcome(agents[i], query).Ok?
    ensures var c := Collect(agents, query);
      var report := Report(used, c.results, c.errors);
      && !(FailureHeader <= report)
      && Header(used) <= report
      && Contains(report, Block((agents[i].0, Outcome(agents[i], query).value)))
  {
    AnswersAreResults(agents, query);
    var c := Collect(agents, query);
    ReportShape(used, c.results, c.errors);
    var answer := (agents[i].0, Outcome(agents[i], query).value);
    var j :| 0 <= j < |c.results| && c.results[j] == answer;
    BlocksInOrder(c.results, j);
    ContainsMiddle(Blocks(c.results[..j]), Block(answer), Blocks(c.results[j + 1..]));
    ContainsInContext(Header(used), Blocks(c.results), if |c.errors| > 0 then "Observações:\n" + Join(c.errors, "\n") else "", Block(answer));
  }

  /** Total failure: when every file's execution raises, the report is
      failure-shaped and lists one error line per file. */
  lemma TotalFailure(agents: seq<(string, Built)>, used: string, query: string)
    requires |agents| > 0
    requires forall i :: 0 <= i < |agents| ==> Outcome(agents[i], query).Raise?
    ensures var c := Collect(agents, query);
      && |c.results| == 0 && |c.errors| == |agents|
      && Report(used, c.results, c.errors) == FailureHeader + Join(c.errors, "\n")
  {
  }

  /** A file whose agent never produces parseable output is filed as an
      answer: the give-up message, under the file's name. */
  lemma ParseExhaustionIsFiledAsAnswer(agents: seq<(string, Built)>, query: string, i: nat)
    requires i < |agents|
    requires forall j, q :: agents[i].1.agent.invoke(j, q).Raise? && IsParseFailure(agents[i].1.agent.invoke(j, q).exc)
    ensures (agents[i].0, ParsingGaveUp(agents[i].0)) in Collect(agents, query).results
  {
    AlwaysUnparseable(agents[i].1.agent, query, agents[i].0, DefaultMaxRetries);
    AnswersAreResults(agents, query);
  }

  // ---------------------------------------------------------------------
  // The class
  // ---------------------------------------------------------------------

  class CsvAgent {
    /** `self.dataframes`: its keys in insertion order, and the mapping. */
    var names: seq<string>
    var frames: map<string, Df>
    /** `OPENAI_API_KEY` and `OPENAI_API_BASE` as read from the environment. */
    const apiKey: Option<string>
    const apiBase: Option<string>

    ghost predicate Valid()
      reads this
    {
      Consistent(names, frames)
    }

    /** `__init__` before its loading step: an empty registry and the
        credentials as found. */
    constructor (apiKey: Option<string>, apiBase: Option<string>)
      ensures Valid()
      ensures names == [] && frames == map[]
      ensures this.apiKey == apiKey && this.apiBase == apiBase
    {
      names := [];
      frames := map[];
      this.apiKey := apiKey;
      this.apiBase := apiBase;
    }

    /** `_load_csvs` over one directory listing: the registry is never
        cleared, only added to or overwritten, and an exception other than a
        decoding or parser error ends the loop (and is raised). */
    method LoadCsvs(listing: seq<string>, read: string -> ReadOutcome) returns (raised: Option<PyException>)
      requires Valid()
      modifies this
      ensures Valid()
      ensures Loaded(names, frames, raised) == LoadFrom(old(names), old(frames), listing, read)
      ensures old(names) <= names && old(frames).Keys <= frames.Keys
    {
      LoadEffect(names, frames, listing, read);
      for i := 0 to |listing|
        invariant LoadFrom(old(names), old(frames), listing, read) == LoadFrom(names, frames, listing[i..], read)
        invariant Consistent(names, frames)
      {
        var file := listing[i];
        assert listing[i..][1..] == listing[i + 1..];
        if EndsWith(file, ".csv") {
          match read(file) {
            case Parsed(df) =>
              if file !in frames {
                assert file !in names;
                names := names + [file];
              }
              frames := frames[file := df];
            case Unreadable(_) =>
            case ReadCrashed(e) =>
              return Some(e);
          }
        }
      }
      assert listing[|listing|..] == [];
      raised := None;
    }

    /** `process_query(query, model)`, never raising: every failure becomes
        text. */
    method ProcessQuery(query: string, model: Option<string>, backend: Backend) returns (run: Run)
      requires Valid()
      ensures run == ProcessQuerySpec(apiKey, apiBase, ItemsOf(names, frames), query, model, backend)
    {
      if !Truthy(apiKey) || !Truthy(apiBase) {
        return Run(CredentialsMissing, 0, 0, 0);
      }
      var chosen := FindAvailableModel(model);
      var candidates := ModelsToTry(chosen);
      var used, connections := EstablishConnection(candidates, backend.connect);
      if used.None? {
        return Run(NoModelConfigured, connections, 0, 0);
      }
      var items := ItemsOf(names, frames);
      var builds := CreateAgents(backend.construct, used.value, items);
      match builds {
        case BuildFailed(file, e, attempted) =>
          run := Run(AgentCreationFailed(file, e), connections, attempted, 0);
        case AllBuilt(agents) =>
          var collected := RunQueries(agents, query);
          var report := AssembleReport(used.value, collected.results, collected.errors);
          run := Run(report, connections, |items|, |agents|);
      }
    }
  }
}

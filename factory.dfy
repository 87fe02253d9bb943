/** `CsvAgent.create_agent_with_fallback` and the per-file construction loop
    of `CsvAgent.process_query`: one agent per dataset, first with the custom
    Portuguese prompt as prefix, then without it. */
module Factory {
  import opened Py
  import opened Retry

  /** A loaded pandas DataFrame; its contents never matter to the core. */
  type Df

  /** Which construction produced an agent. */
  datatype Provenance = Standard | Fallback

  datatype Built = Built(agent: Agent, provenance: Provenance)

  /** `create_pandas_dataframe_agent(llm, df, ...)` for the model the client
      was built with, with (`true`) or without (`false`) the custom prefix. */
  type Constructor = (string, Df, bool) -> Try<Agent>

  /** The result of one call, and how many constructions it attempted. */
  datatype Construction = Construction(result: Try<Built>, attempts: nat)

  /** At most two attempts; `Standard` exactly when the prefixed construction
      succeeds, `Fallback` exactly when only the plain one does, and when both
      fail the second failure is raised (the first is only logged). */
  function CreateAgentWithFallback(construct: Constructor, model: string, df: Df): (c: Construction)
    ensures 1 <= c.attempts <= 2
    ensures c.attempts == 1 <==> construct(model, df, true).Ok?
    ensures c.result.Ok? && c.result.value.provenance == Standard <==> construct(model, df, true).Ok?
    ensures c.result.Ok? && c.result.value.provenance == Fallback
        <==> construct(model, df, true).Raise? && construct(model, df, false).Ok?
    ensures c.result.Ok? && c.result.value.provenance == Standard ==> c.result.value.agent == construct(model, df, true).value
    ensures c.result.Ok? && c.result.value.provenance == Fallback ==> c.result.value.agent == construct(model, df, false).value
    ensures c.result.Raise? ==> construct(model, df, false) == Raise(c.result.exc)
  {
    match construct(model, df, true)
    case Ok(agent) => Construction(Ok(Built(agent, Standard)), 1)
    case Raise(_) =>
      match construct(model, df, false)
      case Ok(agent) => Construction(Ok(Built(agent, Fallback)), 2)
      case Raise(e2) => Construction(Raise(e2), 2)
  }

  /** Outcome of the per-file loop: every file got an agent (in file order),
      or construction failed for `file`, the `attempted`-th file. */
  datatype Builds =
    | AllBuilt(agents: seq<(string, Built)>)
    | BuildFailed(file: string, exc: PyException, attempted: nat)

  function Prepend(done: seq<(string, Built)>, rest: Builds): Builds {
    match rest
    case AllBuilt(agents) => AllBuilt(done + agents)
    case BuildFailed(file, exc, attempted) => BuildFailed(file, exc, |done| + attempted)
  }

  /** The loop over the datasets: the first failure ends it. */
  function BuildAll(construct: Constructor, model: string, items: seq<(string, Df)>): (b: Builds)
    ensures b.AllBuilt? ==> |b.agents| == |items|
    ensures b.AllBuilt? ==> forall i :: 0 <= i < |items| ==>
      (b.agents[i].0 == items[i].0 && CreateAgentWithFallback(construct, model, items[i].1).result == Ok(b.agents[i].1))
    ensures b.BuildFailed? ==> 1 <= b.attempted <= |items| && b.file == items[b.attempted - 1].0
    ensures b.BuildFailed? ==> CreateAgentWithFallback(construct, model, items[b.attempted - 1].1).result == Raise(b.exc)
    ensures b.BuildFailed? ==> forall j :: 0 <= j < b.attempted - 1 ==>
      CreateAgentWithFallback(construct, model, items[j].1).result.Ok?
    decreases |items|
  {
    if |items| == 0 then AllBuilt([])
    else
      match CreateAgentWithFallback(construct, model, items[0].1).result
      case Raise(e) => BuildFailed(items[0].0, e, 1)
      case Ok(built) => Prepend([(items[0].0, built)], BuildAll(construct, model, items[1..]))
  }

  /** One successful construction moves its agent from the rest of the loop
      to the agents already built. */
  lemma BuildStep(construct: Constructor, model: string, items: seq<(string, Df)>, i: nat, done: seq<(string, Built)>, built: Built)
    requires i < |items|
    requires CreateAgentWithFallback(construct, model, items[i].1).result == Ok(built)
    ensures Prepend(done, BuildAll(construct, model, items[i..]))
         == Prepend(done + [(items[i].0, built)], BuildAll(construct, model, items[i + 1..]))
  {
    var head := [(items[i].0, built)];
    assert items[i..][0] == items[i];
    assert items[i..][1..] == items[i + 1..];
    var rest := BuildAll(construct, model, items[i + 1..]);
    assert BuildAll(construct, model, items[i..]) == Prepend(head, rest);
    match rest {
      case AllBuilt(agents) =>
        assert done + (head + agents) == done + head + agents;
      case BuildFailed(_, _, _) =>
    }
  }

  /** The loop as the source runs it: build agents in dataset order and stop
      at the first file whose two constructions both fail. */
  method CreateAgents(construct: Constructor, model: string, items: seq<(string, Df)>) returns (b: Builds)
    ensures b == BuildAll(construct, model, items)
  {
    var agents: seq<(string, Built)> := [];
    for i := 0 to |items|
      invariant BuildAll(construct, model, items) == Prepend(agents, BuildAll(construct, model, items[i..]))
      invariant |agents| == i
    {
      var c := CreateAgentWithFallback(construct, model, items[i].1);
      if c.result.Raise? {
        return BuildFailed(items[i].0, c.result.exc, i + 1);
      }
      BuildStep(construct, model, items, i, agents, c.result.value);
      agents := agents + [(items[i].0, c.result.value)];
    }
    assert items[|items|..] == [];
    b := AllBuilt(agents);
  }
}

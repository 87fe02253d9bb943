/** Model choice (`CsvAgent.find_available_model`) and the connection loop at
    the head of `CsvAgent.process_query`, which tries an ordered list of model
    identifiers and keeps the first one whose `OpenAI(...)` client builds. */
module Connection {
  import opened Py

  /** The backup list of `find_available_model`, most reliable first. */
  const BackupModels: seq<string> := [
    "deepseek/deepseek-prover-v2:free",
    "google/gemma-2-9b-it:free",
    "meta-llama/llama-3.2-3b-instruct:free",
    "microsoft/phi-3-mini-128k-instruct:free",
    "mistralai/mistral-7b-instruct:free",
    "qwen/qwen-2-7b-instruct:free",
    "nousresearch/nous-capybara-7b:free",
    "openchat/openchat-7b:free",
    "huggingfaceh4/zephyr-7b-beta:free"
  ]

  /** A requested model is used verbatim when it is truthy; otherwise the
      first backup model is. The choice is never empty, so the `is None`
      skip of the connection loop never fires. */
  function FindAvailableModel(preferred: Option<string>): (m: string)
    ensures Truthy(preferred) ==> m == preferred.value
    ensures !Truthy(preferred) ==> m == "deepseek/deepseek-prover-v2:free"
    ensures m != ""
  {
    if Truthy(preferred) then preferred.value else BackupModels[0]
  }

  /** The candidates `process_query` tries, in order: the chosen model, then
      three fixed fallbacks (duplicates are tried again). */
  function ModelsToTry(chosen: string): seq<string> {
    [chosen,
     "google/gemma-2-9b-it:free",
     "meta-llama/llama-3.2-3b-instruct:free",
     "microsoft/phi-3-mini-128k-instruct:free"]
  }

  /** The position of the first candidate whose client builds, if any. */
  function FirstConnectable(candidates: seq<string>, connect: string -> bool): (r: Option<nat>)
    ensures r.Some? ==> r.value < |candidates| && connect(candidates[r.value])
    ensures r.Some? ==> forall j :: 0 <= j < r.value ==> !connect(candidates[j])
    ensures r.None? <==> forall j :: 0 <= j < |candidates| ==> !connect(candidates[j])
    decreases |candidates|
  {
    if |candidates| == 0 then None
    else if connect(candidates[0]) then Some(0)
    else match FirstConnectable(candidates[1..], connect)
      case None => None
      case Some(i) => Some(i + 1)
  }

  /** The loop with `break` on the first client that builds: the model used
      and the number of `OpenAI(...)` constructions attempted. */
  method EstablishConnection(candidates: seq<string>, connect: string -> bool)
    returns (used: Option<string>, attempts: nat)
    ensures match FirstConnectable(candidates, connect)
      case Some(i) => used == Some(candidates[i]) && attempts == i + 1
      case None => used == None && attempts == |candidates|
  {
    used := None;
    attempts := 0;
    for k := 0 to |candidates|
      invariant used == None && attempts == k
      invariant forall j :: 0 <= j < k ==> !connect(candidates[j])
    {
      attempts := attempts + 1;
      if connect(candidates[k]) {
        used := Some(candidates[k]);
        break;
      }
    }
  }

  /** Model fallback: when the chosen model fails and the second candidate
      builds, that candidate is used after exactly two attempts and the third
      is never tried. */
  lemma SecondCandidateWins(chosen: string, connect: string -> bool)
    requires !connect(chosen) && connect("google/gemma-2-9b-it:free")
    ensures FirstConnectable(ModelsToTry(chosen), connect) == Some(1)
  {
  }
}

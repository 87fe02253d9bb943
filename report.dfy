/** The tail of `CsvAgent.process_query`: classifying a per-file failure by
    the text of its exception, first match wins, and assembling the composite
    report from the answers and the error lines. */
module Aggregation {
  import opened Py
  import opened Text

  /** The categories of the classification chain, in the order it tests them. */
  datatype ErrorKind =
    | RateLimited
    | AuthenticationFailed
    | RequestTimeout
    | ModelNotFound
    | ModelUnavailable
    | UnparseableOutput
    | Unclassified

  /** The chain over `str(e)`, first match wins: each category is chosen
      exactly when its markers occur and no earlier category's do. All tests
      but "429", "401", "404" and the parse marker look at the lower-cased
      text. */
  function Classify(details: string): (k: ErrorKind)
    ensures k == RateLimited <==> Contains(Lower(details), "rate limit") || Contains(details, "429")
    ensures k == AuthenticationFailed <==>
      !(Contains(Lower(details), "rate limit") || Contains(details, "429"))
      && (Contains(Lower(details), "authentication") || Contains(details, "401"))
    ensures k == RequestTimeout <==>
      !(Contains(Lower(details), "rate limit") || Contains(details, "429"))
      && !(Contains(Lower(details), "authentication") || Contains(details, "401"))
      && Contains(Lower(details), "timeout")
    ensures k == ModelNotFound <==>
      !(Contains(Lower(details), "rate limit") || Contains(details, "429"))
      && !(Contains(Lower(details), "authentication") || Contains(details, "401"))
      && !Contains(Lower(details), "timeout")
      && (Contains(details, "404") || Contains(Lower(details), "not found"))
    ensures k == ModelUnavailable <==>
      !(Contains(Lower(details), "rate limit") || Contains(details, "429"))
      && !(Contains(Lower(details), "authentication") || Contains(details, "401"))
      && !Contains(Lower(details), "timeout")
      && !(Contains(details, "404") || Contains(Lower(details), "not found"))
      && Contains(Lower(details), "endpoints")
    ensures k == UnparseableOutput <==>
      !(Contains(Lower(details), "rate limit") || Contains(details, "429"))
      && !(Contains(Lower(details), "authentication") || Contains(details, "401"))
      && !Contains(Lower(details), "timeout")
      && !(Contains(details, "404") || Contains(Lower(details), "not found"))
      && !Contains(Lower(details), "endpoints")
      && Contains(details, "Could not parse LLM output")
    ensures k == Unclassified <==>
      !Contains(Lower(details), "rate limit") && !Contains(details, "429")
      && !Contains(Lower(details), "authentication") && !Contains(details, "401")
      && !Contains(Lower(details), "timeout")
      && !Contains(details, "404") && !Contains(Lower(details), "not found")
      && !Contains(Lower(details), "endpoints")
      && !Contains(details, "Could not parse LLM output")
  {
    var lower := Lower(details);
    if Contains(lower, "rate limit") || Contains(details, "429") then RateLimited
    else if Contains(lower, "authentication") || Contains(details, "401") then AuthenticationFailed
    else if Contains(lower, "timeout") then RequestTimeout
    else if Contains(details, "404") || Contains(lower, "not found") then ModelNotFound
    else if Contains(lower, "endpoints") then ModelUnavailable
    else if Contains(details, "Could not parse LLM output") then UnparseableOutput
    else Unclassified
  }

  function ErrorPrefix(file: string): string {
    "Erro ao processar " + file + ": "
  }

  /** The one error line a failing file contributes. */
  function ErrorLine(file: string, e: PyException): (line: string)
    ensures ErrorPrefix(file) <= line
    ensures Classify(e.message) == Unclassified ==> line == ErrorPrefix(file) + e.typeName + " - " + e.message
  {
    ErrorPrefix(file) +
      match Classify(e.message)
      case RateLimited => "Limite de requisições excedido"
      case AuthenticationFailed => "Problema de autenticação"
      case RequestTimeout => "Timeout na requisição"
      case ModelNotFound => "Modelo não encontrado ou não disponível"
      case ModelUnavailable => "Modelo temporariamente indisponível"
      case UnparseableOutput => "Problema de parsing na resposta do modelo"
      case Unclassified => e.typeName + " - " + e.message
  }

  const FailureHeader := "Não foi possível processar sua consulta:\n"

  function Header(model: string): string {
    "Resultado da análise (usando modelo: " + model + "):\n\n"
  }

  function Block(result: (string, string)): string {
    "Dados de: " + result.0 + "\n" + result.1 + "\n\n"
  }

  /** The answer blocks, one per result, in order. */
  function Blocks(results: seq<(string, string)>): string
    decreases |results|
  {
    if |results| == 0 then "" else Block(results[0]) + Blocks(results[1..])
  }

  /** The composite report: failure-shaped when nothing was answered and
      something failed; otherwise the header, the blocks, and the error lines
      under "Observações:" when there are any. */
  function Report(model: string, results: seq<(string, string)>, errors: seq<string>): string {
    if |results| == 0 && |errors| > 0 then FailureHeader + Join(errors, "\n")
    else
      Header(model) + Blocks(results)
        + if |errors| > 0 then "Observações:\n" + Join(errors, "\n") else ""
  }

  /** The report is failure-shaped exactly when no dataset was answered and
      at least one failed; otherwise it opens with the header naming the model. */
  lemma ReportShape(model: string, results: seq<(string, string)>, errors: seq<string>)
    ensures FailureHeader <= Report(model, results, errors) <==> |results| == 0 && |errors| > 0
    ensures !(|results| == 0 && |errors| > 0) ==> Header(model) <= Report(model, results, errors)
  {
    var r := Report(model, results, errors);
    if !(|results| == 0 && |errors| > 0) {
      assert r[0] == 'R';
      assert FailureHeader[0] == 'N';
    }
  }

  /** Every error line is part of the report, whichever shape it takes. */
  lemma ErrorsListed(model: string, results: seq<(string, string)>, errors: seq<string>, i: nat)
    requires i < |errors|
    ensures Contains(Report(model, results, errors), errors[i])
  {
    JoinContainsParts(errors, "\n", i);
    if |results| == 0 {
      ContainsAfter(FailureHeader, Join(errors, "\n"), errors[i]);
    } else {
      ContainsAfter("Observações:\n", Join(errors, "\n"), errors[i]);
      ContainsAfter(Header(model) + Blocks(results), "Observações:\n" + Join(errors, "\n"), errors[i]);
    }
  }

  /** Answer blocks, when there are any, end in a blank line. */
  lemma {:induction false} BlocksEndInBlankLine(results: seq<(string, string)>)
    requires |results| > 0
    ensures EndsWith(Blocks(results), "\n\n")
    decreases |results|
  {
    if |results| > 1 {
      BlocksEndInBlankLine(results[1..]);
      var b := Block(results[0]);
      var rest := Blocks(results[1..]);
      assert (b + rest)[|b + rest| - 2..] == rest[|rest| - 2..];
    }
  }

  /** A success-shaped report ends with the observations and the error lines
      exactly when some dataset failed. */
  lemma ObservationsIffErrors(model: string, results: seq<(string, string)>, errors: seq<string>)
    requires |results| > 0
    ensures EndsWith(Report(model, results, errors), "Observações:\n" + Join(errors, "\n")) <==> |errors| > 0
  {
    var r := Report(model, results, errors);
    if |errors| == 0 {
      BlocksEndInBlankLine(results);
      var blocks := Blocks(results);
      assert r == Header(model) + blocks;
      assert r[|r| - 2] == blocks[|blocks| - 2] == '\n';
      var obs := "Observações:\n" + Join(errors, "\n");
      assert obs == "Observações:\n";
      assert obs[|obs| - 2] == ':';
    }
  }

  /** The block of every answer is part of the report, in result order. */
  lemma {:induction false} BlocksInOrder(results: seq<(string, string)>, i: nat)
    requires i < |results|
    ensures Blocks(results) == Blocks(results[..i]) + Block(results[i]) + Blocks(results[i + 1..])
    decreases i
  {
    if i == 0 {
      assert results[..0] == [];
      assert results[1..] == results[i + 1..];
    } else {
      BlocksInOrder(results[1..], i - 1);
      assert results[1..][..i - 1] == results[1..i];
      assert results[1..][i..] == results[i + 1..];
      assert results[..i] == [results[0]] + results[1..i];
      assert Blocks(results[..i]) == Block(results[0]) + Blocks(results[1..i]);
    }
  }

  /** The assembly loop: the header, then one block per result with `+=`,
      then the observations. */
  method AssembleReport(model: string, results: seq<(string, string)>, errors: seq<string>) returns (report: string)
    ensures report == Report(model, results, errors)
  {
    if |results| == 0 && |errors| > 0 {
      return FailureHeader + Join(errors, "\n");
    }
    report := Header(model);
    for i := 0 to |results|
      invariant report + Blocks(results[i..]) == Header(model) + Blocks(results)
    {
      assert results[i..][1..] == results[i + 1..];
      assert Blocks(results[i..]) == Block(results[i]) + Blocks(results[i + 1..]);
      ghost var before := report;
      report := report + "Dados de: " + results[i].0 + "\n";
      report := report + results[i].1 + "\n\n";
      assert report == before + Block(results[i]);
      assert report + Blocks(results[i + 1..]) == before + (Block(results[i]) + Blocks(results[i + 1..]));
    }
    assert results[|results|..] == [];
    assert report == Header(model) + Blocks(results);
    if |errors| > 0 {
      report := report + "Observações:\n" + Join(errors, "\n");
    }
  }
}

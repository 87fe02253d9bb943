/** The pure parts of the Flask front end: the upload extension check
    `allowed_file`, and the `/query` handler's input guards, success text and
    error text with its ordered hints. */
module Web {
  import opened Py
  import opened Text
  import Aggregation

  const AllowedExtensions: set<string> := {"csv", "zip"}

  /** `filename.rsplit('.', 1)[1]` when there is a dot: the text after the
      last one (the whole name when there is none). */
  function AfterLastDot(s: string): (r: string)
    ensures '.' !in r
    ensures EndsWith(s, r)
    ensures '.' in s ==> |r| < |s| && s[|s| - |r| - 1] == '.'
    ensures '.' !in s ==> r == s
    decreases |s|
  {
    if |s| == 0 then ""
    else if s[|s| - 1] == '.' then ""
    else AfterLastDot(s[..|s| - 1]) + [s[|s| - 1]]
  }

  /** `allowed_file`: a dot, and the lower-cased text after the last dot is
      one of the allowed extensions. */
  predicate AllowedFile(filename: string) {
    '.' in filename && Lower(AfterLastDot(filename)) in AllowedExtensions
  }

  /** Only the last dot matters: whatever precedes it, a name is allowed
      exactly when the lower-cased text after it is "csv" or "zip". */
  lemma EarlierDotsIgnored(prefix: string, ext: string)
    requires '.' !in ext
    ensures AllowedFile(prefix + "." + ext) <==> Lower(ext) == "csv" || Lower(ext) == "zip"
  {
    var s := prefix + "." + ext;
    assert s[|prefix|] == '.';
    var r := AfterLastDot(s);
    assert r == s[|s| - |ext|..] == ext;
  }

  /** The hint branches of the `/query` error text, in the order tested. */
  datatype Hint = RateLimitHint | NotFoundHint | AuthenticationHint | TimeoutHint | ParsingHint | GenericHint

  /** The hint chain over `str(e)`, first match wins: each hint is chosen
      exactly when its markers occur and no earlier hint's do. "404" is tested
      before authentication, and there is no "endpoints" branch. */
  function WebHint(details: string): (h: Hint)
    ensures h == RateLimitHint <==> Contains(details, "429") || Contains(Lower(details), "rate limit")
    ensures h == NotFoundHint <==>
      !(Contains(details, "429") || Contains(Lower(details), "rate limit"))
      && (Contains(details, "404") || Contains(Lower(details), "not found"))
    ensures h == AuthenticationHint <==>
      !(Contains(details, "429") || Contains(Lower(details), "rate limit"))
      && !(Contains(details, "404") || Contains(Lower(details), "not found"))
      && (Contains(Lower(details), "authentication") || Contains(details, "401"))
    ensures h == TimeoutHint <==>
      !(Contains(details, "429") || Contains(Lower(details), "rate limit"))
      && !(Contains(details, "404") || Contains(Lower(details), "not found"))
      && !(Contains(Lower(details), "authentication") || Contains(details, "401"))
      && Contains(Lower(details), "timeout")
    ensures h == ParsingHint <==>
      !(Contains(details, "429") || Contains(Lower(details), "rate limit"))
      && !(Contains(details, "404") || Contains(Lower(details), "not found"))
      && !(Contains(Lower(details), "authentication") || Contains(details, "401"))
      && !Contains(Lower(details), "timeout")
      && Contains(details, "Could not parse LLM output")
    ensures h == GenericHint <==>
      !Contains(details, "429") && !Contains(Lower(details), "rate limit")
      && !Contains(details, "404") && !Contains(Lower(details), "not found")
      && !Contains(Lower(details), "authentication") && !Contains(details, "401")
      && !Contains(Lower(details), "timeout")
      && !Contains(details, "Could not parse LLM output")
  {
    var lower := Lower(details);
    if Contains(details, "429") || Contains(lower, "rate limit") then RateLimitHint
    else if Contains(details, "404") || Contains(lower, "not found") then NotFoundHint
    else if Contains(lower, "authentication") || Contains(details, "401") then AuthenticationHint
    else if Contains(lower, "timeout") then TimeoutHint
    else if Contains(details, "Could not parse LLM output") then ParsingHint
    else GenericHint
  }

  /** The two chains agree on rate limiting, and wherever no "404", "not
      found" or "endpoints" marker is present they pick the same category. */
  lemma HintFollowsClassification(details: string)
    ensures WebHint(details) == RateLimitHint <==> Aggregation.Classify(details) == Aggregation.RateLimited
    ensures !Contains(details, "404") && !Contains(Lower(details), "not found") && !Contains(Lower(details), "endpoints") ==>
      WebHint(details) == match Aggregation.Classify(details)
        case RateLimited => RateLimitHint
        case AuthenticationFailed => AuthenticationHint
        case RequestTimeout => TimeoutHint
        case UnparseableOutput => ParsingHint
        case _ => GenericHint
  {
  }

  /** The two chains do differ: a text with both "401" and "404" (and no
      rate-limit marker) is an authentication failure to `process_query` but
      gets the "model not found" hint here, and an "endpoints" text with no
      earlier marker is a temporarily unavailable model there but gets only
      the generic tip here. */
  lemma HintOrderDiffers(details: string)
    requires !Contains(details, "429") && !Contains(Lower(details), "rate limit")
    ensures Contains(details, "401") && Contains(details, "404") ==>
      Aggregation.Classify(details) == Aggregation.AuthenticationFailed && WebHint(details) == NotFoundHint
    ensures (Contains(Lower(details), "endpoints")
             && !Contains(details, "404") && !Contains(Lower(details), "not found")
             && !Contains(Lower(details), "authentication") && !Contains(details, "401")
             && !Contains(Lower(details), "timeout") && !Contains(details, "Could not parse LLM output")) ==>
      Aggregation.Classify(details) == Aggregation.ModelUnavailable && WebHint(details) == GenericHint
  {
  }

  const ErrorIntro := "Erro ao processar sua consulta: "

  const Rule := "=================================================="

  const RateLimitBanner :=
    "\n\n🚫 LIMITE DE REQUISIÇÕES EXCEDIDO" + "\n" + Rule
    + "\n\n📊 Informações sobre limites dos modelos gratuitos:"
    + "\n• Limite diário: 50 requisições por dia"
    + "\n• Status atual: Limite excedido"
    + "\n• Reinício do limite: À meia-noite (UTC)"

  const CreditsBlock :=
    "\n\n💰 Para desbloquear mais requisições:"
    + "\n• Adicione 10 créditos no OpenRouter"
    + "\n• Isso aumentará seu limite para 1.000 requisições/dia"
    + "\n• Acesse: https://openrouter.ai/credits"

  const AlternativesBlock :=
    "\n\n⏰ Alternativas imediatas:"
    + "\n• Aguarde até a meia-noite (UTC) para reset automático"
    + "\n• Use sua própria chave de API de outros provedores"
    + "\n• Teste com perguntas mais simples quando disponível"

  const TechnicalHeading := "\n\n📈 Detalhes técnicos extraídos do erro:"
  const RemainingLine := "\n• Requisições restantes: 0"
  const LimitLine := "\n• Limite total: 50 requisições"

  /** The one-line tip of every branch but the rate-limit one. */
  function Tip(h: Hint): string {
    match h
    case NotFoundHint => "\n\n💡 Dica: Modelo não encontrado. O sistema tentará automaticamente usar um modelo alternativo disponível."
    case AuthenticationHint => "\n\n💡 Dica: Problema de autenticação. Verifique se as variáveis de ambiente OPENAI_API_KEY e OPENAI_API_BASE estão configuradas corretamente."
    case TimeoutHint => "\n\n💡 Dica: Timeout na requisição. Tente uma pergunta mais simples ou aguarde alguns minutos."
    case ParsingHint => "\n\n💡 Dica: Problema no processamento da resposta do modelo. Tente reformular sua pergunta ou escolher outro modelo."
    case _ => "\n\n💡 Dica: Tente reformular sua pergunta ou selecionar um modelo diferente."
  }

  /** The rate-limit branch's optional blocks, each present exactly when its
      marker occurs in the exception's text. */
  function CreditsFor(details: string): (r: string)
    ensures r == CreditsBlock <==> Contains(details, "free-models-per-day")
    ensures r == "" <==> !Contains(details, "free-models-per-day")
  {
    if Contains(details, "free-models-per-day") then CreditsBlock else ""
  }

  /** The technical details: the heading only with the remaining-count
      header, and under it each of its two lines under its own test. */
  function TechnicalDetails(details: string): (r: string)
    ensures r == "" <==> !Contains(details, "X-RateLimit-Remaining")
    ensures TechnicalHeading <= r <==> Contains(details, "X-RateLimit-Remaining")
  {
    if Contains(details, "X-RateLimit-Remaining") then
      TechnicalHeading + RemainingFor(details) + LimitFor(details)
    else ""
  }

  function RemainingFor(details: string): (r: string)
    ensures r == RemainingLine <==> Contains(details, "'X-RateLimit-Remaining': '0'")
    ensures r == "" <==> !Contains(details, "'X-RateLimit-Remaining': '0'")
  {
    if Contains(details, "'X-RateLimit-Remaining': '0'") then RemainingLine else ""
  }

  function LimitFor(details: string): (r: string)
    ensures r == LimitLine <==> Contains(details, "X-RateLimit-Limit")
    ensures r == "" <==> !Contains(details, "X-RateLimit-Limit")
  {
    if Contains(details, "X-RateLimit-Limit") then LimitLine else ""
  }

  /** The error text for `str(e) == details`: the intro and the details, then
      exactly one hint branch, the first that matches. On a rate limit that is
      the banner, the credits block, the alternatives and the technical
      details, the two optional parts each gated by its own marker. */
  function ErrorMessage(details: string): (m: string)
    ensures ErrorIntro + details <= m
    ensures WebHint(details) != RateLimitHint ==> m == ErrorIntro + details + Tip(WebHint(details))
    ensures WebHint(details) == RateLimitHint ==>
      m == ErrorIntro + details + RateLimitBanner + CreditsFor(details) + AlternativesBlock + TechnicalDetails(details)
  {
    if WebHint(details) == RateLimitHint then
      ErrorIntro + details + RateLimitBanner + CreditsFor(details) + AlternativesBlock + TechnicalDetails(details)
    else
      ErrorIntro + details + Tip(WebHint(details))
  }

  /** On the per-day free limit the credits block is part of the text. */
  lemma CreditsShownForDailyLimit(details: string)
    requires WebHint(details) == RateLimitHint && Contains(details, "free-models-per-day")
    ensures Contains(ErrorMessage(details), CreditsBlock)
  {
    ContainsInside(ErrorIntro + details + RateLimitBanner, CreditsBlock, AlternativesBlock, TechnicalDetails(details));
  }

  /** On a rate limit with the remaining-count header the technical heading
      is part of the text. */
  lemma TechnicalDetailsShownForHeader(details: string)
    requires WebHint(details) == RateLimitHint && Contains(details, "X-RateLimit-Remaining")
    ensures Contains(ErrorMessage(details), TechnicalHeading)
  {
    ContainsNested(ErrorIntro + details + RateLimitBanner + CreditsFor(details) + AlternativesBlock,
      TechnicalHeading, RemainingFor(details), LimitFor(details));
  }

  /** The `except` block as the source runs it: successive appends, one
      named block per run of consecutive lines. */
  method BuildErrorMessage(details: string) returns (m: string)
    ensures m == ErrorMessage(details)
  {
    m := ErrorIntro + details;
    var lower := Lower(details);
    if Contains(details, "429") || Contains(lower, "rate limit") {
      m := m + RateLimitBanner;
      if Contains(details, "free-models-per-day") {
        m := m + CreditsBlock;
      }
      assert m == ErrorIntro + details + RateLimitBanner + CreditsFor(details);
      m := m + AlternativesBlock;
      var technical := "";
      if Contains(details, "X-RateLimit-Remaining") {
        technical := TechnicalHeading;
        if Contains(details, "'X-RateLimit-Remaining': '0'") {
          technical := technical + RemainingLine;
        }
        if Contains(details, "X-RateLimit-Limit") {
          technical := technical + LimitLine;
        }
        assert technical == TechnicalHeading + RemainingFor(details) + LimitFor(details);
      }
      m := m + technical;
    } else if Contains(details, "404") || Contains(lower, "not found") {
      m := m + Tip(NotFoundHint);
    } else if Contains(lower, "authentication") || Contains(details, "401") {
      m := m + Tip(AuthenticationHint);
    } else if Contains(lower, "timeout") {
      m := m + Tip(TimeoutHint);
    } else if Contains(details, "Could not parse LLM output") {
      m := m + Tip(ParsingHint);
    } else {
      m := m + Tip(GenericHint);
    }
  }

  /** The names `os.listdir` gave that end in ".csv", in listing order. */
  function CsvFiles(listing: seq<string>): (files: seq<string>)
    ensures forall f :: f in files <==> f in listing && EndsWith(f, ".csv")
    decreases |listing|
  {
    if |listing| == 0 then []
    else (if EndsWith(listing[0], ".csv") then [listing[0]] else []) + CsvFiles(listing[1..])
  }

  const FieldsRequired := "Erro: Modelo e pergunta são obrigatórios."
  const NoCsvAvailable :=
    "Não há arquivos CSV disponíveis para consulta. Por favor, faça o upload de pelo menos um arquivo CSV."

  function FormattedResponse(model: string, question: string, elapsed: string, response: string): string {
    "Modelo usado: " + model + "\nPergunta: " + question + "\n\nResposta (" + elapsed + "s):\n" + response
  }

  /** What the handler sends back: a 400 reply, or the page rendered with a
      response text and the CSV names. */
  datatype WebResponse = BadRequest(body: string) | Page(response: string, files: seq<string>)

  /** The `/query` handler. `call` is what `process_query(question, model)`
      returns or raises, and `elapsed` the rounded seconds as text; neither is
      consulted unless both guards pass. */
  method HandleQuery(selectedModel: Option<string>, question: Option<string>, listing: seq<string>,
                     elapsed: string, call: Try<string>) returns (r: WebResponse)
    ensures r.BadRequest? <==> !Truthy(selectedModel) || !Truthy(question)
    ensures r.BadRequest? ==> r.body == FieldsRequired
    ensures r.Page? && CsvFiles(listing) == [] ==> r == Page(NoCsvAvailable, [])
    ensures r.Page? && CsvFiles(listing) != [] ==> r.files == CsvFiles(listing)
    ensures r.Page? && CsvFiles(listing) != [] && call.Ok? ==>
      r.response == FormattedResponse(selectedModel.value, question.value, elapsed, call.value)
      && "Modelo usado: " + selectedModel.value + "\n" <= r.response
    ensures r.Page? && CsvFiles(listing) != [] && call.Raise? ==> r.response == ErrorMessage(call.exc.message)
  {
    if !Truthy(selectedModel) || !Truthy(question) {
      return BadRequest(FieldsRequired);
    }
    var csvFiles := CsvFiles(listing);
    if csvFiles == [] {
      return Page(NoCsvAvailable, []);
    }
    match call {
      case Ok(response) =>
        r := Page(FormattedResponse(selectedModel.value, question.value, elapsed, response), csvFiles);
      case Raise(e) =>
        var message := BuildErrorMessage(e.message);
        r := Page(message, csvFiles);
    }
  }
}

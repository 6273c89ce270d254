/** The page's generation state: whether a banner is being generated, the error to show
    and the generated image, and the handler that drives them through one request. */
module AppState {
  import opened Wrappers
  import opened JsStrings
  import opened JsErrors
  import opened Types
  import PromptBuilder
  import opened ServiceMessages
  import opened GeminiService

  /** The message shown when the failure is not an `Error`. */
  const UNKNOWN_ERROR := "Ocorreu um erro desconhecido ao gerar o banner."

  /** `err instanceof Error ? err.message : <fallback>`. */
  function ErrorMessage(t: Thrown): string {
    match t
    case ErrorObject(m) => m
    case NonError => UNKNOWN_ERROR
  }

  /** The three state cells as the page shows them. */
  datatype View = View(loading: bool, error: Option<string>, generatedImageUrl: Option<string>)

  /** The page once the service has settled with `r`: no longer loading, and showing
      either the image or the error, never both. */
  function Shown(r: Settled<string>): (v: View)
    ensures !v.loading
    ensures v.error.Some? <==> v.generatedImageUrl.None?
    ensures r.Fulfilled? ==> v.generatedImageUrl == Some(r.value)
    ensures r.Rejected? ==> v.error == Some(ErrorMessage(r.reason))
  {
    match r
    case Fulfilled(url) => View(false, None, Some(url))
    case Rejected(t) => View(false, Some(ErrorMessage(t)), None)
  }

  /** The service only ever fails with an `Error`, so the page shows the service's own
      message and never the fallback for other thrown values; in particular a missing
      key and an unusable product image show their messages. */
  lemma ShownServiceMessage(apiKey: Option<string>, o: BannerOptions, sentences: PromptBuilder.Template,
                            sdk: Request -> Settled<Response>)
    ensures var r := ServiceResult(apiKey, o, sentences, sdk);
      r.Rejected? ==> Shown(r).error == Some(r.reason.message)
    ensures !TruthyOpt(apiKey) ==> Shown(ServiceResult(apiKey, o, sentences, sdk)).error == Some(KEY_MISSING)
    ensures TruthyOpt(apiKey) && !ImageAccepted(o) ==>
      Shown(ServiceResult(apiKey, o, sentences, sdk)).error == Some(INVALID_URI)
  {
  }

  /** A request whose model call fails with a message mentioning `SAFETY` or `400` shows
      the blocked message, whatever else the message says. */
  lemma ShownBlocked(apiKey: Option<string>, o: BannerOptions, sentences: PromptBuilder.Template,
                     sdk: Request -> Settled<Response>, p: string, tok: string, q: string)
    requires TruthyOpt(apiKey) && ImageAccepted(o)
    requires tok == SAFETY_TOKEN || tok == BAD_REQUEST_TOKEN
    requires sdk(RequestFor(o, PromptBuilder.Prompt(o, sentences))) == Rejected(ErrorObject(p + tok + q))
    ensures Shown(ServiceResult(apiKey, o, sentences, sdk)).error == Some(BLOCKED)
  {
    TokenIsBlocked(p, tok, q);
  }

  /** The page component's state cells. */
  class App {
    var loading: bool
    var error: Option<string>
    var generatedImageUrl: Option<string>

    /** The state as the page shows it. */
    function Current(): View
      reads this
    {
      View(loading, error, generatedImageUrl)
    }

    constructor()
      ensures Current() == View(false, None, None)
    {
      loading := false;
      error := None;
      generatedImageUrl := None;
    }

    /** The start of a request: loading, with the previous error and image cleared. */
    method Begin()
      modifies this
      ensures Current() == View(true, None, None)
    {
      loading := true;
      error := None;
      generatedImageUrl := None;
    }

    /** The end of a request that settled with `r`: the `try`/`catch`/`finally` blocks. */
    method Settle(r: Settled<string>)
      requires Current() == View(true, None, None)
      modifies this
      ensures Current() == Shown(r)
    {
      match r {
        case Fulfilled(imageUrl) =>
          generatedImageUrl := Some(imageUrl);
        case Rejected(err) =>
          error := Some(ErrorMessage(err));
      }
      loading := false;
    }

    /** `handleGenerateBanner`: one request through the service, after which the page
        shows what the service settled to. */
    method HandleGenerateBanner(apiKey: Option<string>, options: BannerOptions,
                                sentences: PromptBuilder.Template, sdk: Request -> Settled<Response>)
      modifies this
      ensures Current() == Shown(ServiceResult(apiKey, options, sentences, sdk))
    {
      Begin();
      var result, _ := GenerateBanner(apiKey, options, sentences, sdk);
      Settle(result);
    }
  }
}

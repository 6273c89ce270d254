/** The fixed messages of the banner generator service and the two substrings by which
    it reclassifies failures. The longer messages are written as lists of short phrases
    joined in order: the text is the same, and the proofs about their characters stay small. */
module ServiceMessages {
  import opened JsStrings

  /** The phrases of a message, joined in order. */
  function Text(phrases: seq<string>): string {
    if phrases == [] then "" else phrases[0] + Text(phrases[1..])
  }

  /** The messages of the errors the service raises. The phrase lists are repeated in the
      lemmas below, which prove the messages free of the reclassification tokens phrase
      by phrase. */
  const KEY_MISSING := "A chave da API do Gemini não foi configurada."
  const INVALID_URI := Text(["A imagem do ", "produto fornecida ", "não é um ", "formato de ", "dados URI ", "válido."])
  const NO_IMAGE := Text(["A IA não ", "retornou uma ", "imagem válida.", " A resposta ", "pode ter sido ", "bloqueada.",
    " Tente ", "ajustar suas ", "opções."])
  const BLOCKED := Text(["Sua ", "solicitação foi ", "bloqueada por ", "políticas de ", "segurança ", "ou por uma ",
    "entrada ", "inválida.", " Tente um ", "prompt ou ", "imagem ", "diferente."])
  const COMM_FAILURE := Text(["Falha ao ", "se comunicar ", "com a API ", "de geração ", "de imagem."])

  /** The start of the message raised when the model answers with text instead of an
      image, up to the opening quote. */
  const REFUSAL_PREFIX := Text(["A IA ", "retornou uma ", "mensagem em ", "vez de uma ", "imagem: "]) + "\""

  /** The substrings that mark a failure as a safety block or an invalid request. */
  const SAFETY_TOKEN := "SAFETY"
  const BAD_REQUEST_TOKEN := "400"

  /** `m` holds neither a `Y` nor a `4`. */
  predicate NoTokenChars(m: string) {
    forall c | c in m :: c != 'Y' && c != '4'
  }

  /** Neither character enters a concatenation through its parts. */
  lemma NoTokenCharsJoin(a: string, b: string)
    requires NoTokenChars(a) && NoTokenChars(b)
    ensures NoTokenChars(a + b)
  {
  }

  /** A string without `Y` and `4` mentions neither token. */
  lemma NoTokenCharsExcludes(m: string)
    requires NoTokenChars(m)
    ensures !Includes(m, SAFETY_TOKEN) && !Includes(m, BAD_REQUEST_TOKEN)
  {
    MissingCharExcludes(m, SAFETY_TOKEN, 'Y');
    MissingCharExcludes(m, BAD_REQUEST_TOKEN, '4');
  }

  /** A message whose phrases hold neither character holds neither character. */
  lemma {:induction false} TextNoTokenChars(phrases: seq<string>)
    requires forall i | 0 <= i < |phrases| :: NoTokenChars(phrases[i])
    ensures NoTokenChars(Text(phrases))
  {
    if phrases != [] {
      TextNoTokenChars(phrases[1..]);
      NoTokenCharsJoin(phrases[0], Text(phrases[1..]));
    }
  }

  lemma InvalidUriNoTokenChars()
    ensures NoTokenChars(INVALID_URI)
  {
    TextNoTokenChars(["A imagem do ", "produto fornecida ", "não é um ", "formato de ", "dados URI ", "válido."]);
  }

  lemma NoImageNoTokenChars()
    ensures NoTokenChars(NO_IMAGE)
  {
    TextNoTokenChars(["A IA não ", "retornou uma ", "imagem válida.", " A resposta ", "pode ter sido ", "bloqueada.",
      " Tente ", "ajustar suas ", "opções."]);
  }

  lemma BlockedNoTokenChars()
    ensures NoTokenChars(BLOCKED)
  {
    TextNoTokenChars(["Sua ", "solicitação foi ", "bloqueada por ", "políticas de ", "segurança ", "ou por uma ",
      "entrada ", "inválida.", " Tente um ", "prompt ou ", "imagem ", "diferente."]);
  }

  lemma CommFailureNoTokenChars()
    ensures NoTokenChars(COMM_FAILURE)
  {
    TextNoTokenChars(["Falha ao ", "se comunicar ", "com a API ", "de geração ", "de imagem."]);
  }

  /** The prefix holds neither character and ends with the opening quote. */
  lemma RefusalPrefixNoTokenChars()
    ensures NoTokenChars(REFUSAL_PREFIX)
    ensures |REFUSAL_PREFIX| > 0 && REFUSAL_PREFIX[|REFUSAL_PREFIX| - 1] == '"'
  {
    TextNoTokenChars(["A IA ", "retornou uma ", "mensagem em ", "vez de uma ", "imagem: "]);
    NoTokenCharsJoin(Text(["A IA ", "retornou uma ", "mensagem em ", "vez de uma ", "imagem: "]), "\"");
  }
}

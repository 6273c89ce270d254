/** `buildPrompt`: the deterministic text prompt sent to the image model.

    The prompt is specified as a list of clauses (`PromptClauses`), each rendered by
    `Render` to its fixed text with the user's values interpolated; `BuildPrompt`
    accumulates the same text step by step. Properties of the prompt's structure are
    stated on the clause list: statements about substrings of the rendered text would
    not hold in general, since the user's free text may contain anything. */
module PromptBuilder {
  import opened Wrappers
  import opened JsStrings
  import opened Types
  import opened Constants

  // ---------------------------------------------------------------------------
  // Size label lookup

  /** `sizes.find(s => s.value === token)?.label`: the label of the first entry
      whose value is `token`, if any. */
  function FindSizeLabel(sizes: seq<BannerSize>, token: string): (r: Option<string>)
    ensures r.None? <==> forall i :: 0 <= i < |sizes| ==> sizes[i].value != token
    ensures r.Some? ==> exists i :: (0 <= i < |sizes| && sizes[i].value == token
      && sizes[i].labelText == r.value
      && forall j :: 0 <= j < i ==> sizes[j].value != token)
  {
    if sizes == [] then None
    else if sizes[0].value == token then Some(sizes[0].labelText)
    else
      var r := FindSizeLabel(sizes[1..], token);
      assert r.Some? ==> exists i :: (0 <= i < |sizes[1..]| && sizes[1..][i].value == token
        && sizes[1..][i].labelText == r.value
        && forall j :: 0 <= j < i ==> sizes[1..][j].value != token);
      if r.Some? then
        var i :| 0 <= i < |sizes[1..]| && sizes[1..][i].value == token
          && sizes[1..][i].labelText == r.value
          && forall j :: 0 <= j < i ==> sizes[1..][j].value != token;
        assert forall j :: 0 <= j < i + 1 ==> sizes[j].value != token;
        r
      else r
  }

  /** The size label interpolated into the prompt: the first matching label, or the
      raw token when none matches (or the label is empty: `|| options.bannerSize`). */
  function SizeLabel(bannerSize: string): string {
    match FindSizeLabel(BANNER_SIZES, bannerSize)
    case Some(l) => if Truthy(l) then l else bannerSize
    case None => bannerSize
  }

  /** Every known token resolves to the label of its FIRST table entry; "1:1" is listed
      twice and resolves to the Shopee label. Any other token is substituted raw. */
  lemma SizeLabelTable(token: string)
    ensures token == "16:9" ==> SizeLabel(token) == "Mercado Livre (1200x628px)"
    ensures token == "1:1" ==> SizeLabel(token) == "Shopee (800x800px)"
    ensures token == "9:16" ==> SizeLabel(token) == "Instagram Stories (1080x1920px)"
    ensures token !in {"16:9", "1:1", "9:16"} ==> SizeLabel(token) == token
  {
  }

  // ---------------------------------------------------------------------------
  // Clauses and their text

  /** The pieces the prompt is assembled from, in the order the template writes them. */
  datatype Clause =
    | Opening
    | UseSuppliedImage
    | GenerateProduct(productName: string, category: string)
    | KeyElements(style: string, promotionType: string, originalPrice: string,
                  promotionalPrice: string, cta: string, primaryColor: string,
                  secondaryColor: string, sizeLabel: string)
    | AdditionalHeader
    | FreeShippingLine
    | ExtendedWarrantyLine
    | LastUnitsLine
    | CountdownLine(countdown: string)
    | Closing

  /** The fixed sentences of the prompt template, between the interpolated values.
      Reasoning about the prompt is generic in the template, so that no proof has to
      look inside the sentences; `PT_BR` holds the Brazilian Portuguese text the
      generator sends. */
  datatype Template = Template(
    opening: string,
    useImage: string,
    generate1: string, generate2: string, generate3: string,
    design1: string, design2: string, design3: string, design4: string, design5: string,
    design6: string, design7: string, design8: string, design9: string,
    additionalHeader: string,
    freeShipping: string,
    extendedWarranty: string,
    lastUnits: string,
    countdown1: string, countdown2: string,
    closing: string)

  const PT_BR: Template := Template(
    "Crie um banner promocional profissional e visualmente atraente para um marketplace de e-commerce, em português do Brasil.\n\n**Instrução Principal:**\n",
    "**Use a imagem fornecida como o produto principal.** Integre-a perfeitamente ao design do banner, garantindo que ela seja o ponto focal. Ajuste a iluminação, sombras e reflexos da imagem do produto para que correspondam de forma realista ao ambiente do banner.",
    "**Gere uma imagem fotorrealista e de alta qualidade de um(a) \"",
    "\"** como o produto principal. Este produto pertence à categoria \"",
    "\". O produto deve ser o foco central e parecer atraente.",
    "\n\n**Elementos Chave do Design:**\n- **Estilo de Design:** ",
    ". O clima geral deve ser limpo, moderno e profissional.\n- **Tipo de Promoção:** A campanha é de \"",
    "\". O design deve refletir este tema (ex: para \"Black Friday\", use um tema escuro e de alto contraste; para \"Lançamento\", algo vibrante e novo).\n- **Preços:** Exiba claramente os preços. O original é \"",
    "\" e o promocional é \"",
    "\". Dê maior destaque ao preço promocional. O preço original deve ser menor, talvez com um efeito de riscado (strikethrough).\n- **Chamada para Ação (CTA):** Destaque o texto: \"",
    "\". Deve estar em uma área de alta visibilidade.\n- **Paleta de Cores:** Cor primária da marca: ",
    ". Cor secundária: ",
    ". Use estas cores de forma harmoniosa no banner para textos, fundos e elementos gráficos.\n- **Dimensões:** O banner deve ser otimizado para a proporção de ",
    ".\n",
    "\n**Gráficos Adicionais:**\n",
    "- Inclua um selo ou ícone de \"Frete Grátis\".\n",
    "- Inclua um selo ou ícone de \"Garantia Estendida\".\n",
    "- Crie um senso de urgência com um texto como \"Últimas Unidades\" ou \"Poucas Unidades\".\n",
    "- Inclua uma representação visual de um cronômetro de contagem regressiva ou um texto que diga \"Oferta válida por ",
    "\".\n",
    "\n**Composição e Qualidade Final:**\n- Garanta que todo o texto seja legível, bem espaçado e com bom contraste.\n- O layout deve ser equilibrado, guiando o olhar do espectador para o produto e a CTA.\n- Não inclua textos de placeholder como \"lorem ipsum\".\n- O resultado deve ser um banner finalizado e polido, pronto para publicação.\n- Não inclua logos ou marcas d'água de IA.\n  ")

  /** The exact text a clause contributes under template `t`. */
  function Render(c: Clause, t: Template): string {
    match c
    case Opening => t.opening
    case UseSuppliedImage => t.useImage
    case GenerateProduct(name, category) =>
      t.generate1 + name + t.generate2 + category + t.generate3
    case KeyElements(style, promotionType, originalPrice, promotionalPrice, cta, primaryColor, secondaryColor, sizeLabel) =>
      t.design1 + style + t.design2 + promotionType + t.design3 + originalPrice
      + t.design4 + promotionalPrice + t.design5 + cta + t.design6 + primaryColor
      + t.design7 + secondaryColor + t.design8 + sizeLabel + t.design9
    case AdditionalHeader => t.additionalHeader
    case FreeShippingLine => t.freeShipping
    case ExtendedWarrantyLine => t.extendedWarranty
    case LastUnitsLine => t.lastUnits
    case CountdownLine(countdown) => t.countdown1 + countdown + t.countdown2
    case Closing => t.closing
  }

  /** The text of a list of clauses, in order. */
  function Join(cs: seq<Clause>, t: Template): string {
    if cs == [] then "" else Render(cs[0], t) + Join(cs[1..], t)
  }

  /** Joining distributes over concatenation of clause lists. */
  lemma {:induction false} JoinAppend(a: seq<Clause>, b: seq<Clause>, t: Template)
    ensures Join(a + b, t) == Join(a, t) + Join(b, t)
  {
    if a == [] {
      assert a + b == b;
    } else {
      assert (a + b)[0] == a[0] && (a + b)[1..] == a[1..] + b;
      JoinAppend(a[1..], b, t);
    }
  }

  // ---------------------------------------------------------------------------
  // The prompt, as a list of clauses

  /** The main instruction: use the supplied photo when `productImage` is truthy,
      otherwise synthesise the named product of the given category. */
  function MainInstruction(o: BannerOptions): Clause {
    if TruthyOpt(o.productImage) then UseSuppliedImage
    else GenerateProduct(o.productName, o.category)
  }

  /** The design-elements block, with the resolved size label. */
  function KeyElementsOf(o: BannerOptions): Clause {
    KeyElements(o.style, o.promotionType, o.originalPrice, o.promotionalPrice, o.cta,
                o.primaryColor, o.secondaryColor, SizeLabel(o.bannerSize))
  }

  /** The section is written when the element list is non-empty or the countdown is truthy. */
  predicate HasAdditionalSection(o: BannerOptions) {
    |o.additionalElements| > 0 || Truthy(o.countdown)
  }

  /** `sec` followed by `c` when `present` holds, `sec` alone otherwise. */
  function AddIf(sec: seq<Clause>, present: bool, c: Clause): seq<Clause> {
    if present then sec + [c] else sec
  }

  /** The "Gráficos Adicionais" section: a header, then one line per recognised
      element in a fixed order, then the countdown line. */
  function AdditionalSection(o: BannerOptions): seq<Clause> {
    if HasAdditionalSection(o) then
      var els := o.additionalElements;
      var withFreeShipping := AddIf([AdditionalHeader], FREE_SHIPPING in els, FreeShippingLine);
      var withWarranty := AddIf(withFreeShipping, EXTENDED_WARRANTY in els, ExtendedWarrantyLine);
      var withLastUnits := AddIf(withWarranty, LAST_UNITS in els, LastUnitsLine);
      AddIf(withLastUnits, Truthy(o.countdown), CountdownLine(o.countdown))
    else []
  }

  /** The whole prompt: opening, main instruction, design elements, the optional
      additional section and the closing block. */
  function PromptClauses(o: BannerOptions): seq<Clause> {
    [Opening, MainInstruction(o), KeyElementsOf(o)] + AdditionalSection(o) + [Closing]
  }

  /** The prompt for `o` written with the sentences `t`. */
  function Prompt(o: BannerOptions, t: Template): string {
    Join(PromptClauses(o), t)
  }

  /** The prompt text `buildPrompt(o)` returns: the prompt in the generator's own sentences. */
  function PromptText(o: BannerOptions): string {
    Prompt(o, PT_BR)
  }

  // ---------------------------------------------------------------------------
  // buildPrompt

  /** `buildPrompt`: the prompt in the generator's own template. */
  method BuildPrompt(o: BannerOptions) returns (prompt: string)
    ensures prompt == PromptText(o)
  {
    prompt := BuildPromptWith(o, PT_BR);
  }

  /** The body of `buildPrompt` over template `t`, accumulating into `prompt` with
      `+=` as the source does. The ghost `head` and `section` record the clauses
      written so far. */
  method BuildPromptWith(o: BannerOptions, t: Template) returns (prompt: string)
    ensures prompt == Prompt(o, t)
  {
    var sizeLabel := SizeLabel(o.bannerSize);
    var main := if TruthyOpt(o.productImage) then UseSuppliedImage
                else GenerateProduct(o.productName, o.category);
    var design := KeyElements(o.style, o.promotionType, o.originalPrice, o.promotionalPrice,
                              o.cta, o.primaryColor, o.secondaryColor, sizeLabel);
    prompt := Render(Opening, t) + Render(main, t) + Render(design, t);
    ghost var head := [Opening, main, design];
    ghost var section: seq<Clause> := [];
    assert prompt == Join(head, t) + Join(section, t) by {
      Append([], Opening, t);
      Append([Opening], main, t);
      Append([Opening, main], design, t);
    }

    if |o.additionalElements| > 0 || Truthy(o.countdown) {
      Extend(head, section, AdditionalHeader, t);
      prompt, section := prompt + Render(AdditionalHeader, t), [AdditionalHeader];
      if FREE_SHIPPING in o.additionalElements {
        Extend(head, section, FreeShippingLine, t);
        prompt := prompt + Render(FreeShippingLine, t);
      }
      section := AddIf(section, FREE_SHIPPING in o.additionalElements, FreeShippingLine);
      if EXTENDED_WARRANTY in o.additionalElements {
        Extend(head, section, ExtendedWarrantyLine, t);
        prompt := prompt + Render(ExtendedWarrantyLine, t);
      }
      section := AddIf(section, EXTENDED_WARRANTY in o.additionalElements, ExtendedWarrantyLine);
      if LAST_UNITS in o.additionalElements {
        Extend(head, section, LastUnitsLine, t);
        prompt := prompt + Render(LastUnitsLine, t);
      }
      section := AddIf(section, LAST_UNITS in o.additionalElements, LastUnitsLine);
      if Truthy(o.countdown) {
        Extend(head, section, CountdownLine(o.countdown), t);
        prompt := prompt + Render(CountdownLine(o.countdown), t);
      }
      section := AddIf(section, Truthy(o.countdown), CountdownLine(o.countdown));
    }
    assert section == AdditionalSection(o);

    JoinAppend(head, section, t);
    Append(head + section, Closing, t);
    prompt := prompt + Render(Closing, t);
    assert head + section + [Closing] == PromptClauses(o);
  }

  /** One `+=` step: appending a clause's text to the text of `head` and `section`
      gives the text of `head` and the extended section. */
  lemma Extend(head: seq<Clause>, section: seq<Clause>, c: Clause, t: Template)
    ensures Join(head, t) + Join(section + [c], t) == Join(head, t) + Join(section, t) + Render(c, t)
  {
    Append(section, c, t);
  }

  /** Appending one clause appends its text. */
  lemma Append(cs: seq<Clause>, c: Clause, t: Template)
    ensures Join(cs + [c], t) == Join(cs, t) + Render(c, t)
  {
    JoinAppend(cs, [c], t);
  }

  // ---------------------------------------------------------------------------
  // Properties of the prompt

  /** With a truthy `productImage` the main instruction is the "use the supplied image"
      clause and no clause quotes the product name or category; otherwise the main
      instruction quotes both and the supplied-image clause is absent. */
  lemma MainInstructionBranch(o: BannerOptions)
    ensures PromptClauses(o)[1] == MainInstruction(o)
    ensures TruthyOpt(o.productImage) ==>
      UseSuppliedImage in PromptClauses(o)
      && forall c :: c in PromptClauses(o) ==> !c.GenerateProduct?
    ensures !TruthyOpt(o.productImage) ==>
      GenerateProduct(o.productName, o.category) in PromptClauses(o)
      && UseSuppliedImage !in PromptClauses(o)
  {
  }

  /** Without a truthy image, the prompt quotes the product name and category,
      whatever the template's sentences. */
  lemma PromptQuotesProduct(o: BannerOptions, t: Template)
    requires !TruthyOpt(o.productImage)
    ensures Includes(Join(PromptClauses(o), t), o.productName)
    ensures Includes(Join(PromptClauses(o), t), o.category)
  {
    var m := GenerateProduct(o.productName, o.category);
    assert PromptClauses(o)[1] == m;
    IncludesPiece(t.generate1, o.productName, t.generate2 + o.category + t.generate3);
    assert Render(m, t) == t.generate1 + o.productName + (t.generate2 + o.category + t.generate3);
    IncludesInJoin(PromptClauses(o), 1, o.productName, t);
    IncludesPiece(t.generate1 + o.productName + t.generate2, o.category, t.generate3);
    IncludesInJoin(PromptClauses(o), 1, o.category, t);
  }

  /** Whatever one clause's text includes, the joined text includes. */
  lemma {:induction false} IncludesInJoin(cs: seq<Clause>, i: nat, w: string, t: Template)
    requires i < |cs| && Includes(Render(cs[i], t), w)
    ensures Includes(Join(cs, t), w)
    decreases i
  {
    if i == 0 {
      IncludesInside("", Render(cs[0], t), Join(cs[1..], t), w);
      assert "" + Render(cs[0], t) == Render(cs[0], t);
    } else {
      assert cs[1..][i - 1] == cs[i];
      IncludesInJoin(cs[1..], i - 1, w, t);
      IncludesInside(Render(cs[0], t), Join(cs[1..], t), "", w);
      assert Render(cs[0], t) + Join(cs[1..], t) + "" == Render(cs[0], t) + Join(cs[1..], t);
    }
  }

  /** The additional-graphics header is written exactly when the element list is
      non-empty or the countdown is truthy, and the closing block is always last. */
  lemma AdditionalHeaderIff(o: BannerOptions)
    ensures AdditionalHeader in PromptClauses(o) <==> HasAdditionalSection(o)
    ensures PromptClauses(o)[|PromptClauses(o)| - 1] == Closing
    ensures Closing !in PromptClauses(o)[..|PromptClauses(o)| - 1]
  {
    var pc := PromptClauses(o);
    assert pc[..|pc| - 1] == [Opening, MainInstruction(o), KeyElementsOf(o)] + AdditionalSection(o);
  }

  /** The closing block ends the prompt text. */
  lemma PromptEndsWithClosing(o: BannerOptions, t: Template)
    ensures exists head :: Join(PromptClauses(o), t) == head + t.closing
  {
    var pc := PromptClauses(o);
    assert pc == pc[..|pc| - 1] + [Closing];
    Append(pc[..|pc| - 1], Closing, t);
  }

  /** The position of a section line in the fixed order of the section. */
  function SectionRank(c: Clause): nat {
    match c
    case AdditionalHeader => 0
    case FreeShippingLine => 1
    case ExtendedWarrantyLine => 2
    case LastUnitsLine => 3
    case CountdownLine(_) => 4
    case _ => 5
  }

  /** Section lines appear in strictly increasing rank. */
  predicate Ranked(sec: seq<Clause>) {
    forall i, j :: 0 <= i < j < |sec| ==> SectionRank(sec[i]) < SectionRank(sec[j])
  }

  /** Every clause of `sec` ranks below `r`. */
  predicate RanksBelow(sec: seq<Clause>, r: nat) {
    forall k :: 0 <= k < |sec| ==> SectionRank(sec[k]) < r
  }

  /** One optional step of the section keeps the clauses in rank order. */
  lemma AddIfRanked(sec: seq<Clause>, present: bool, c: Clause)
    requires Ranked(sec) && RanksBelow(sec, SectionRank(c))
    ensures Ranked(AddIf(sec, present, c))
    ensures RanksBelow(AddIf(sec, present, c), SectionRank(c) + 1)
  {
  }

  /** One optional step of the section adds `c` exactly when `present`. */
  lemma AddIfMembers(sec: seq<Clause>, present: bool, c: Clause)
    ensures forall x :: x in AddIf(sec, present, c) <==> x in sec || (present && x == c)
  {
  }

  /** Inside the section the header comes first and the countdown line, when
      present, is last. */
  lemma SectionEnds(o: BannerOptions)
    requires HasAdditionalSection(o)
    ensures AdditionalSection(o)[0] == AdditionalHeader
    ensures Truthy(o.countdown) ==>
      AdditionalSection(o)[|AdditionalSection(o)| - 1] == CountdownLine(o.countdown)
  {
  }

  /** The section's clauses follow the fixed order of the lines, so each line appears
      at most once, whatever the order or repetitions of the list. */
  lemma SectionOrder(o: BannerOptions)
    requires HasAdditionalSection(o)
    ensures Ranked(AdditionalSection(o))
  {
    var els := o.additionalElements;
    var header := [AdditionalHeader];
    var withFreeShipping := AddIf(header, FREE_SHIPPING in els, FreeShippingLine);
    var withWarranty := AddIf(withFreeShipping, EXTENDED_WARRANTY in els, ExtendedWarrantyLine);
    var withLastUnits := AddIf(withWarranty, LAST_UNITS in els, LastUnitsLine);
    AddIfRanked(header, FREE_SHIPPING in els, FreeShippingLine);
    AddIfRanked(withFreeShipping, EXTENDED_WARRANTY in els, ExtendedWarrantyLine);
    AddIfRanked(withWarranty, LAST_UNITS in els, LastUnitsLine);
    AddIfRanked(withLastUnits, Truthy(o.countdown), CountdownLine(o.countdown));
  }

  /** Each recognised element contributes its line exactly when it is in the list,
      and the countdown line appears exactly when the countdown is truthy, quoting it. */
  lemma SectionMembership(o: BannerOptions)
    requires HasAdditionalSection(o)
    ensures FreeShippingLine in AdditionalSection(o) <==> FREE_SHIPPING in o.additionalElements
    ensures ExtendedWarrantyLine in AdditionalSection(o) <==> EXTENDED_WARRANTY in o.additionalElements
    ensures LastUnitsLine in AdditionalSection(o) <==> LAST_UNITS in o.additionalElements
    ensures forall s :: CountdownLine(s) in AdditionalSection(o) <==> Truthy(o.countdown) && s == o.countdown
  {
    var els := o.additionalElements;
    var header := [AdditionalHeader];
    var withFreeShipping := AddIf(header, FREE_SHIPPING in els, FreeShippingLine);
    var withWarranty := AddIf(withFreeShipping, EXTENDED_WARRANTY in els, ExtendedWarrantyLine);
    var withLastUnits := AddIf(withWarranty, LAST_UNITS in els, LastUnitsLine);
    AddIfMembers(header, FREE_SHIPPING in els, FreeShippingLine);
    AddIfMembers(withFreeShipping, EXTENDED_WARRANTY in els, ExtendedWarrantyLine);
    AddIfMembers(withWarranty, LAST_UNITS in els, LastUnitsLine);
    AddIfMembers(withLastUnits, Truthy(o.countdown), CountdownLine(o.countdown));
  }

  /** The section depends only on WHICH values the list holds: reordering it or
      repeating values leaves the prompt unchanged. */
  lemma SectionIgnoresOrderAndRepeats(o: BannerOptions, els: seq<string>)
    requires forall x :: x in els <==> x in o.additionalElements
    ensures PromptClauses(o.(additionalElements := els)) == PromptClauses(o)
  {
    if |els| > 0 {
      assert els[0] in o.additionalElements;
    }
    if |o.additionalElements| > 0 {
      assert o.additionalElements[0] in els;
    }
  }

  /** A value the builder does not recognise adds nothing to a prompt that already
      has the section; a list holding only unrecognised values, with an empty
      countdown, still yields the header with no lines under it. */
  lemma UnrecognisedAddsNothing(o: BannerOptions, x: string)
    requires x !in ADDITIONAL_ELEMENTS
    ensures HasAdditionalSection(o) ==>
      PromptClauses(o.(additionalElements := o.additionalElements + [x])) == PromptClauses(o)
    ensures (forall e :: e in o.additionalElements ==> e !in ADDITIONAL_ELEMENTS) && !Truthy(o.countdown) ==>
      AdditionalSection(o.(additionalElements := o.additionalElements + [x])) == [AdditionalHeader]
  {
    var more := o.additionalElements + [x];
    assert x != FREE_SHIPPING && x != EXTENDED_WARRANTY && x != LAST_UNITS by {
      assert ADDITIONAL_ELEMENTS == [FREE_SHIPPING, EXTENDED_WARRANTY, LAST_UNITS];
    }
    assert forall e :: e in more <==> e in o.additionalElements || e == x;
    assert HasAdditionalSection(o.(additionalElements := more));
  }
}

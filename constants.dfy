/** The fixed catalogues the form offers and the prompt builder recognises. */
module Constants {

  /** One entry of the banner size table: a human-readable label (`label`) and the
      aspect-ratio token the form submits. */
  datatype BannerSize = BannerSize(labelText: string, value: string)

  /** `BANNER_SIZES`, in table order. The token "1:1" appears twice. */
  const BANNER_SIZES: seq<BannerSize> := [
    BannerSize("Mercado Livre (1200x628px)", "16:9"),
    BannerSize("Shopee (800x800px)", "1:1"),
    BannerSize("Instagram/Facebook (1080x1080px)", "1:1"),
    BannerSize("Instagram Stories (1080x1920px)", "9:16")
  ]

  /** The three additional elements the prompt builder recognises. */
  const FREE_SHIPPING: string := "Frete Grátis"
  const EXTENDED_WARRANTY: string := "Garantia Estendida"
  const LAST_UNITS: string := "Últimas Unidades"

  /** `ADDITIONAL_ELEMENTS`: the checkbox values the form renders, in display order. */
  const ADDITIONAL_ELEMENTS: seq<string> := [FREE_SHIPPING, EXTENDED_WARRANTY, LAST_UNITS]
}

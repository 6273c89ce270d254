/** The campaign options record that the form collects and the generator consumes. */
module Types {
  import opened Wrappers

  /** `BannerOptions`. `productImage` is an optional data URI; `additionalElements`
      lists the ticked checkbox values in the order they were ticked. */
  datatype BannerOptions = BannerOptions(
    promotionType: string,
    category: string,
    productName: string,
    originalPrice: string,
    promotionalPrice: string,
    productImage: Option<string>,
    cta: string,
    primaryColor: string,
    secondaryColor: string,
    additionalElements: seq<string>,
    countdown: string,
    bannerSize: string,
    style: string)

  /** The form inputs wired to the generic change handler, named by their `name` attribute. */
  datatype TextField =
    | PromotionType | Category | ProductName | OriginalPrice | PromotionalPrice
    | Cta | PrimaryColor | SecondaryColor | Countdown | BannerSize | Style

  /** The value of the string field `f` of `o` (`o[f]`). */
  function FieldValue(o: BannerOptions, f: TextField): string {
    match f
    case PromotionType => o.promotionType
    case Category => o.category
    case ProductName => o.productName
    case OriginalPrice => o.originalPrice
    case PromotionalPrice => o.promotionalPrice
    case Cta => o.cta
    case PrimaryColor => o.primaryColor
    case SecondaryColor => o.secondaryColor
    case Countdown => o.countdown
    case BannerSize => o.bannerSize
    case Style => o.style
  }
}

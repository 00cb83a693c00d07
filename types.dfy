/**
 * The records the recommendation path and the seed script exchange: catalog
 * vendors, district carriers and the recommendation result.
 */
module Types {

  datatype Option<+T> = None | Some(value: T) {
    function GetOr(default: T): T {
      match this
      case Some(v) => v
      case None => default
    }
  }

  /** A catalog entry, independent of any district. */
  datatype BaseVendor = BaseVendor(
    vendor: string,
    riskScoreCategory: seq<string>,
    businessType: string,
    notes: Option<string>)

  /** The closed set of carrier kinds the database enumerates. */
  datatype CarrierType = NLG | MIDLAND | B403 | B457

  /**
   * A vendor approved for one district. `district` is the name of the owning
   * district, which is that district's unique key; `link` is absent for the
   * two carriers every district gets.
   */
  datatype Carrier = Carrier(
    name: string,
    kind: CarrierType,
    recommended: bool,
    link: Option<string>,
    district: string)

  /** What `getRecommendations` returns. */
  datatype RecommendationResult = RecommendationResult(
    top403b: seq<BaseVendor>,
    all403b: seq<Carrier>,
    fallbackIRA: seq<BaseVendor>,
    message: string)
}

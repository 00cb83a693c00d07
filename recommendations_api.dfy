/**
 * The `POST /api/recommendations` handler: normalise the requested district
 * and risk label, look the district's carriers up by exact name, and return
 * the recommendation alongside the echoed inputs. The database lookup is a
 * parameter: a district name maps to its carriers, or to `None` when no
 * district has that name.
 */
module RecommendationsApi {
  import opened Types
  import opened Strings
  import opened VendorLogic

  /** The JSON the handler answers with. */
  datatype Response = Response(district: string, userRisk: Option<string>, recommendations: RecommendationResult)

  /** The trimmed district name, or `None` when it is blank. A missing `district` field arrives as `""`. */
  function DistrictName(rawDistrict: string): (r: Option<string>)
    ensures r == None <==> Trim(rawDistrict) == ""
    ensures r.Some? ==> r.value == Trim(rawDistrict) && r.value != ""
  {
    if Trim(rawDistrict) == "" then None else Some(Trim(rawDistrict))
  }

  /** `rawRisk ? rawRisk.toString().trim() : null`: a missing or empty label is `None`, any other is trimmed. */
  function UserRisk(rawRisk: Option<string>): (r: Option<string>)
    ensures r == None <==> IsFalsy(rawRisk)
    ensures r.Some? ==> r.value == Trim(rawRisk.value)
  {
    if IsFalsy(rawRisk) then None else Some(Trim(rawRisk.value))
  }

  /** The district's carriers: looked up only for a non-blank name, `None` when the name is unknown. */
  function DistrictCarriers(name: Option<string>, lookup: string -> Option<seq<Carrier>>): (r: Option<seq<Carrier>>)
    ensures name == None ==> r == None
    ensures name.Some? ==> r == lookup(name.value)
  {
    match name
    case None => None
    case Some(n) => lookup(n)
  }

  /** The whole handler, with the database lookup as `lookup`. */
  function Post(rawDistrict: string, rawRisk: Option<string>, lookup: string -> Option<seq<Carrier>>): (r: Response)
    ensures r.district != ""
    ensures r.userRisk == UserRisk(rawRisk)
    ensures r.recommendations
      == GetRecommendations(DistrictCarriers(DistrictName(rawDistrict), lookup), UserRisk(rawRisk))
  {
    var name := DistrictName(rawDistrict);
    var carriers := DistrictCarriers(name, lookup);
    var risk := UserRisk(rawRisk);
    Response(name.GetOr("None"), risk, GetRecommendations(carriers, risk))
  }

  /** The echoed district is the trimmed name when it is not blank, and "None" otherwise. */
  lemma EchoedDistrict(rawDistrict: string, rawRisk: Option<string>, lookup: string -> Option<seq<Carrier>>)
    ensures Post(rawDistrict, rawRisk, lookup).district
      == if Trim(rawDistrict) == "" then "None" else Trim(rawDistrict)
  {
  }

  /** A blank district name is never looked up: the answer does not depend on the database at all. */
  lemma BlankDistrictIgnoresLookup(rawDistrict: string, rawRisk: Option<string>,
                                   lookup1: string -> Option<seq<Carrier>>, lookup2: string -> Option<seq<Carrier>>)
    requires Trim(rawDistrict) == ""
    ensures Post(rawDistrict, rawRisk, lookup1) == Post(rawDistrict, rawRisk, lookup2)
    ensures Post(rawDistrict, rawRisk, lookup1).recommendations.message == NoDistrictMessage
  {
  }

  /** An unknown district name is answered as if no district had been given, except for the echoed name. */
  lemma UnknownDistrictIsNoDistrict(rawDistrict: string, rawRisk: Option<string>, lookup: string -> Option<seq<Carrier>>)
    requires lookup(Trim(rawDistrict)) == None
    ensures Post(rawDistrict, rawRisk, lookup).recommendations == Post("", rawRisk, lookup).recommendations
  {
    TrimStartFixed("");
    TrimEndFixed("");
  }

  /** Surrounding whitespace in the district name does not change the answer. */
  lemma PaddedDistrictSameAnswer(rawDistrict: string, rawRisk: Option<string>, lookup: string -> Option<seq<Carrier>>)
    ensures Post(rawDistrict, rawRisk, lookup) == Post(Trim(rawDistrict), rawRisk, lookup)
  {
    TrimIdempotent(rawDistrict);
  }

  /**
   * A whitespace-only risk label is echoed as `""`, which the policy treats
   * like no label: the answer equals the one for a missing label, apart from
   * the echo.
   */
  lemma BlankRiskIsNoFilter(rawDistrict: string, risk: string, lookup: string -> Option<seq<Carrier>>)
    requires risk != "" && Trim(risk) == ""
    ensures Post(rawDistrict, Some(risk), lookup).userRisk == Some("")
    ensures Post(rawDistrict, Some(risk), lookup).recommendations == Post(rawDistrict, None, lookup).recommendations
  {
    FalsyRisksAgreeOnCatalog(DistrictCarriers(DistrictName(rawDistrict), lookup));
  }
}

/** The static vendor catalog the recommendation policy reads. */
module Catalog {
  import opened Types

  const AmericanEquity := BaseVendor("American Equity", ["Aggressive", "Most Aggressive"], "Annuity", Some("Single Premium"))
  const Athene := BaseVendor("Athene", ["Growth"], "Annuity", Some("Single Premium"))
  const AuguStar := BaseVendor("AuguStar", ["Conservative"], "Annuity", Some("Single Premium"))
  const AxCorebridge := BaseVendor("AX Corebridge", ["Balanced"], "Annuity", Some("Single Premium"))
  const AxNorthAmerican := BaseVendor("AX North American", ["Conservative"], "Annuity", Some("Single Premium"))
  const FandG := BaseVendor("F&G", ["Balanced"], "Annuity", Some(""))
  const GlobalAtlantic := BaseVendor("Global Atlantic", ["Conservative"], "Annuity", Some("Single Premium"))
  const Midland := BaseVendor("Midland", ["Conservative"], "Annuity", Some(""))
  const Nationwide := BaseVendor("Nationwide", ["Conservative", "Growth"], "Annuity", Some("Single Premium"))
  const NLGroup := BaseVendor("NLGroup", ["Conservative"], "Annuity, Life", Some(""))
  const SecurityBenefit := BaseVendor("Security Benefit", ["Balanced"], "Annuity", Some("Single Premium"))
  const Symetra := BaseVendor("Symetra", ["Conservative"], "Annuity", Some("Single Premium"))

  /** `baseVendors`, in declaration order. */
  const BaseVendors: seq<BaseVendor> := [
    AmericanEquity, Athene, AuguStar, AxCorebridge, AxNorthAmerican, FandG,
    GlobalAtlantic, Midland, Nationwide, NLGroup, SecurityBenefit, Symetra
  ]

  /** `t` occurs in `s` as a contiguous block. */
  predicate Contains(s: string, t: string) {
    (|t| <= |s| && s[..|t|] == t) || (s != [] && Contains(s[1..], t))
  }

  /** The catalog has twelve entries and no vendor name occurs twice. */
  lemma CatalogShape()
    ensures |BaseVendors| == 12
    ensures forall i, j :: 0 <= i < j < |BaseVendors| ==> BaseVendors[i].vendor != BaseVendors[j].vendor
  {
  }

  /** Every entry suits at least one risk category and is an annuity business. */
  lemma EveryEntryIsTaggedAnnuity()
    ensures forall v :: v in BaseVendors ==> |v.riskScoreCategory| > 0
    ensures forall v :: v in BaseVendors ==> Contains(v.businessType, "Annuity")
  {
    forall v | v in BaseVendors
      ensures |v.riskScoreCategory| > 0 && Contains(v.businessType, "Annuity")
    {
      AnnuityBusiness(v);
    }
  }

  /** Either business type the catalog uses mentions annuities. */
  lemma AnnuityBusiness(v: BaseVendor)
    requires v.businessType == "Annuity" || v.businessType == "Annuity, Life"
    ensures Contains(v.businessType, "Annuity")
  {
    assert "Annuity, Life"[..7] == "Annuity";
  }

  /** Some vendors belong to two risk categories. */
  lemma MultiCategoryVendors()
    ensures Nationwide in BaseVendors && AmericanEquity in BaseVendors
    ensures "Conservative" in Nationwide.riskScoreCategory && "Growth" in Nationwide.riskScoreCategory
    ensures "Aggressive" in AmericanEquity.riskScoreCategory
    ensures "Most Aggressive" in AmericanEquity.riskScoreCategory
  {
  }
}

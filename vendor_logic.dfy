/**
 * The recommendation policy: intersect a district's carriers with the
 * catalog, narrow by the user's risk category, keep at most two, and always
 * attach the IRA fallback list.
 */
module VendorLogic {
  import opened Types
  import opened Strings
  import opened Catalog

  /** A risk label `filterByRisk` treats as "no filter": null or the empty string. */
  predicate IsFalsy(risk: Option<string>) {
    risk == None || risk == Some("")
  }

  /** `cats.some(cat => cat.toLowerCase() === risk.toLowerCase())` */
  predicate AnyCategoryIs(cats: seq<string>, risk: string)
    ensures AnyCategoryIs(cats, risk) <==> exists i :: 0 <= i < |cats| && Lower(cats[i]) == Lower(risk)
  {
    cats != [] && (Lower(cats[0]) == Lower(risk) || AnyCategoryIs(cats[1..], risk))
  }

  /** The vendor is tagged with `risk`, ignoring case. */
  predicate SuitsRisk(v: BaseVendor, risk: string) {
    AnyCategoryIs(v.riskScoreCategory, risk)
  }

  /** `vendors.filter(v => SuitsRisk(v, risk))` */
  function KeepSuiting(vendors: seq<BaseVendor>, risk: string): (r: seq<BaseVendor>)
    ensures |r| <= |vendors|
    ensures forall v :: v in r <==> v in vendors && SuitsRisk(v, risk)
  {
    if vendors == [] then []
    else if SuitsRisk(vendors[0], risk) then [vendors[0]] + KeepSuiting(vendors[1..], risk)
    else KeepSuiting(vendors[1..], risk)
  }

  /** `filterByRisk`: a falsy risk keeps every vendor; otherwise keep those tagged with it. */
  function FilterByRisk(vendors: seq<BaseVendor>, risk: Option<string>): (r: seq<BaseVendor>)
    ensures |r| <= |vendors|
    ensures IsFalsy(risk) ==> r == vendors
    ensures !IsFalsy(risk) ==> forall v :: v in r <==> v in vendors && SuitsRisk(v, risk.value)
  {
    if IsFalsy(risk) then vendors else KeepSuiting(vendors, risk.value)
  }

  lemma {:induction false} KeepSuitingAppend(a: seq<BaseVendor>, b: seq<BaseVendor>, risk: string)
    ensures KeepSuiting(a + b, risk) == KeepSuiting(a, risk) + KeepSuiting(b, risk)
  {
    if a == [] {
      assert a + b == b;
    } else {
      assert (a + b)[0] == a[0];
      assert (a + b)[1..] == a[1..] + b;
      KeepSuitingAppend(a[1..], b, risk);
    }
  }

  /** The risk filter keeps the input order: filtering a concatenation is filtering each part. */
  lemma FilterByRiskKeepsOrder(a: seq<BaseVendor>, b: seq<BaseVendor>, risk: Option<string>)
    ensures FilterByRisk(a + b, risk) == FilterByRisk(a, risk) + FilterByRisk(b, risk)
  {
    if !IsFalsy(risk) {
      KeepSuitingAppend(a, b, risk.value);
    }
  }

  /** The lower-cased, trimmed form under which carrier and vendor names are compared. */
  function NameKey(name: string): (r: string)
    ensures |r| <= |name|
    ensures r == [] || (!IsWhitespace(r[0]) && !IsWhitespace(r[|r| - 1]))
  {
    Trim(Lower(name))
  }

  /** `loweredCarriers.includes(key)`, where `loweredCarriers` holds every carrier's name key. */
  predicate AnyCarrierNamed(carriers: seq<Carrier>, key: string)
    ensures AnyCarrierNamed(carriers, key) <==> exists i :: 0 <= i < |carriers| && NameKey(carriers[i].name) == key
  {
    carriers != [] && (NameKey(carriers[0].name) == key || AnyCarrierNamed(carriers[1..], key))
  }

  /**
   * The catalog entries whose whole name some district carrier carries, in
   * catalog order: `vendors.filter(bv => loweredCarriers.includes(bv.vendor.toLowerCase().trim()))`.
   */
  function Intersect(vendors: seq<BaseVendor>, carriers: seq<Carrier>): (r: seq<BaseVendor>)
    ensures |r| <= |vendors|
    ensures forall v :: v in r <==> v in vendors && AnyCarrierNamed(carriers, NameKey(v.vendor))
  {
    if vendors == [] then []
    else if AnyCarrierNamed(carriers, NameKey(vendors[0].vendor)) then [vendors[0]] + Intersect(vendors[1..], carriers)
    else Intersect(vendors[1..], carriers)
  }

  /** The intersection keeps catalog order: intersecting a concatenation intersects each part. */
  lemma {:induction false} IntersectKeepsOrder(a: seq<BaseVendor>, b: seq<BaseVendor>, carriers: seq<Carrier>)
    ensures Intersect(a + b, carriers) == Intersect(a, carriers) + Intersect(b, carriers)
  {
    if a == [] {
      assert a + b == b;
    } else {
      assert (a + b)[0] == a[0];
      assert (a + b)[1..] == a[1..] + b;
      IntersectKeepsOrder(a[1..], b, carriers);
    }
  }

  /** No carriers, no intersection. */
  lemma {:induction false} IntersectWithoutCarriers(vendors: seq<BaseVendor>)
    ensures Intersect(vendors, []) == []
  {
    if vendors != [] {
      IntersectWithoutCarriers(vendors[1..]);
    }
  }

  /** The fixed IRA fallback names, lower-cased as `getFallbackIRA` compares them. */
  const FallbackKeys: seq<string> := ["national life group", "midland"]

  /**
   * `getFallbackIRA`: the entries of `vendors` named like a fallback name,
   * ignoring case, in their order. `getRecommendations` passes the user's
   * risk to this helper, which ignores it, so the model does not take it.
   */
  function FallbackIRA(vendors: seq<BaseVendor>): (r: seq<BaseVendor>)
    ensures |r| <= |vendors|
    ensures forall v :: v in r <==> v in vendors && Lower(v.vendor) in FallbackKeys
  {
    if vendors == [] then []
    else if Lower(vendors[0].vendor) in FallbackKeys then [vendors[0]] + FallbackIRA(vendors[1..])
    else FallbackIRA(vendors[1..])
  }

  /** `s.slice(0, n)`: the first `n` elements, or all of them when there are fewer. */
  function Take(s: seq<BaseVendor>, n: nat): (r: seq<BaseVendor>)
    ensures r <= s
    ensures |r| == if |s| <= n then |s| else n
  {
    if |s| <= n then s else s[..n]
  }

  const NoDistrictMessage: string :=
    "No district selected. Showing two recommended 403(b)/IRA vendors plus fallback IRA options."
  const NoMatchMessage: string :=
    "No recommended 403(b) carriers in your district match your risk profile. "
    + "Below is the full list of approved carriers in your district. "
    + "For a Traditional or Roth IRA option, here are two fallback choices."
  const OneMatchMessage: string :=
    "Only one district-approved carrier matched your risk profile. "
    + "We also have two fallback IRA options for you."
  const ManyMatchMessage: string :=
    "We found multiple carriers that match your risk profile; "
    + "here are your top two. You may also consider these IRA options."

  /** The catalog entries that survive the intersection with the carriers and the risk filter. */
  function Matched(catalog: seq<BaseVendor>, carriers: seq<Carrier>, userRisk: Option<string>): (r: seq<BaseVendor>)
    ensures |r| <= |catalog|
    ensures forall v :: v in r <==>
      (v in catalog && AnyCarrierNamed(carriers, NameKey(v.vendor)) && (IsFalsy(userRisk) || SuitsRisk(v, userRisk.value)))
  {
    FilterByRisk(Intersect(catalog, carriers), userRisk)
  }

  /**
   * The body of `getRecommendations`, over the catalog it reads. At most two
   * top picks, all from the catalog and all of the user's risk category, and
   * the same fallback list in every branch.
   */
  function Recommend(catalog: seq<BaseVendor>, districtCarriers: Option<seq<Carrier>>, userRisk: Option<string>)
    : (r: RecommendationResult)
    ensures |r.top403b| <= 2
    ensures forall v :: v in r.top403b ==> v in catalog
    ensures !IsFalsy(userRisk) ==> forall v :: v in r.top403b ==> SuitsRisk(v, userRisk.value)
    ensures r.fallbackIRA == FallbackIRA(catalog)
  {
    match districtCarriers
    case None =>
      RecommendationResult(Take(FilterByRisk(catalog, userRisk), 2), [], FallbackIRA(catalog), NoDistrictMessage)
    case Some(carriers) =>
      var matched := Matched(catalog, carriers, userRisk);
      if |matched| == 0 then
        RecommendationResult([], carriers, FallbackIRA(catalog), NoMatchMessage)
      else if |matched| == 1 then
        RecommendationResult(matched[..1], carriers, FallbackIRA(catalog), OneMatchMessage)
      else
        RecommendationResult(matched[..2], carriers, FallbackIRA(catalog), ManyMatchMessage)
  }

  /** `getRecommendations(districtCarriers, userRisk)`, reading the static catalog. */
  function GetRecommendations(districtCarriers: Option<seq<Carrier>>, userRisk: Option<string>)
    : (r: RecommendationResult)
    ensures |r.top403b| <= 2
    ensures forall v :: v in r.top403b ==> v in BaseVendors
    ensures !IsFalsy(userRisk) ==> forall v :: v in r.top403b ==> SuitsRisk(v, userRisk.value)
  {
    Recommend(BaseVendors, districtCarriers, userRisk)
  }

  /** With no district, nothing is listed as the district's and the top picks come from the whole catalog. */
  lemma NoDistrictBranch(catalog: seq<BaseVendor>, userRisk: Option<string>)
    ensures var r := Recommend(catalog, None, userRisk);
      && r.all403b == []
      && r.top403b == Take(FilterByRisk(catalog, userRisk), 2)
      && r.message == NoDistrictMessage
  {
  }

  /**
   * With a district (even one without carriers), every carrier is echoed
   * unchanged and the top picks are the first at most two matched vendors,
   * each named by some carrier.
   */
  lemma DistrictBranch(catalog: seq<BaseVendor>, carriers: seq<Carrier>, userRisk: Option<string>)
    ensures var r := Recommend(catalog, Some(carriers), userRisk);
      && r.all403b == carriers
      && r.top403b == Take(Matched(catalog, carriers, userRisk), 2)
      && forall v :: v in r.top403b ==>
           exists i :: 0 <= i < |carriers| && NameKey(carriers[i].name) == NameKey(v.vendor)
  {
    var m := Matched(catalog, carriers, userRisk);
    var r := Recommend(catalog, Some(carriers), userRisk);
    assert r.top403b == Take(m, 2);
    forall v | v in r.top403b
      ensures exists i :: 0 <= i < |carriers| && NameKey(carriers[i].name) == NameKey(v.vendor)
    {
      assert v in m;
      assert v in Intersect(catalog, carriers);
    }
  }

  /** The message tells apart no match, exactly one match and more than one. */
  lemma MessageByMatchCount(catalog: seq<BaseVendor>, carriers: seq<Carrier>, userRisk: Option<string>)
    ensures var n := |Matched(catalog, carriers, userRisk)|;
      Recommend(catalog, Some(carriers), userRisk).message ==
        if n == 0 then NoMatchMessage else if n == 1 then OneMatchMessage else ManyMatchMessage
    ensures NoMatchMessage != OneMatchMessage && OneMatchMessage != ManyMatchMessage
      && NoMatchMessage != ManyMatchMessage
  {
    assert |NoMatchMessage| == 203 && |OneMatchMessage| == 108 && |ManyMatchMessage| == 120;
  }

  /**
   * A district gets a top pick exactly when it carries some catalog vendor of
   * the user's risk category (any vendor, when there is no risk label); then
   * the message is not the no-match one.
   */
  lemma TopPickIffMatch(catalog: seq<BaseVendor>, carriers: seq<Carrier>, userRisk: Option<string>)
    ensures var r := Recommend(catalog, Some(carriers), userRisk);
      (|r.top403b| >= 1 <==>
        exists v :: v in catalog && AnyCarrierNamed(carriers, NameKey(v.vendor))
          && (IsFalsy(userRisk) || SuitsRisk(v, userRisk.value)))
      && (|r.top403b| >= 1 <==> r.message != NoMatchMessage)
  {
    var m := Matched(catalog, carriers, userRisk);
    MessageByMatchCount(catalog, carriers, userRisk);
    if exists v :: v in catalog && AnyCarrierNamed(carriers, NameKey(v.vendor))
         && (IsFalsy(userRisk) || SuitsRisk(v, userRisk.value)) {
      var v :| v in catalog && AnyCarrierNamed(carriers, NameKey(v.vendor))
        && (IsFalsy(userRisk) || SuitsRisk(v, userRisk.value));
      assert v in m;
    }
    if |m| >= 1 {
      assert m[0] in m;
    }
  }

  /** A district without carriers gets no top picks. */
  lemma EmptyDistrictHasNoTopPicks(catalog: seq<BaseVendor>, userRisk: Option<string>)
    ensures Recommend(catalog, Some([]), userRisk).top403b == []
    ensures Recommend(catalog, Some([]), userRisk).message == NoMatchMessage
  {
    IntersectWithoutCarriers(catalog);
  }

  /** Both falsy labels, missing and empty, give the same recommendation. */
  lemma FalsyRisksAgree(catalog: seq<BaseVendor>, districtCarriers: Option<seq<Carrier>>)
    ensures Recommend(catalog, districtCarriers, None) == Recommend(catalog, districtCarriers, Some(""))
  {
    if districtCarriers.Some? {
      assert Matched(catalog, districtCarriers.value, None) == Matched(catalog, districtCarriers.value, Some(""));
    }
  }

  /** The same for the static catalog. */
  lemma FalsyRisksAgreeOnCatalog(districtCarriers: Option<seq<Carrier>>)
    ensures GetRecommendations(districtCarriers, None) == GetRecommendations(districtCarriers, Some(""))
  {
    FalsyRisksAgree(BaseVendors, districtCarriers);
  }

  /** The fallback list is the same whatever the carriers and the risk. */
  lemma FallbackIgnoresInputs(c1: Option<seq<Carrier>>, r1: Option<string>, c2: Option<seq<Carrier>>, r2: Option<string>)
    ensures GetRecommendations(c1, r1).fallbackIRA == GetRecommendations(c2, r2).fallbackIRA == FallbackIRA(BaseVendors)
  {
  }
}

/** What the policy yields on the shipped catalog. */
module CatalogRecommendations {
  import opened Types
  import opened Strings
  import opened Catalog
  import opened VendorLogic

  lemma {:induction false} FallbackAppend(a: seq<BaseVendor>, b: seq<BaseVendor>)
    ensures FallbackIRA(a + b) == FallbackIRA(a) + FallbackIRA(b)
  {
    if a == [] {
      assert a + b == b;
    } else {
      assert (a + b)[0] == a[0];
      assert (a + b)[1..] == a[1..] + b;
      FallbackAppend(a[1..], b);
    }
  }

  /** A name can only be a fallback name if it has that name's length and initial. */
  lemma FallbackKeyShape(name: string)
    requires Lower(name) in FallbackKeys
    ensures |name| == 7 || |name| == 19
    ensures |name| == 7 ==> LowerChar(name[0]) == 'm'
  {
    assert Lower(name)[0] == LowerChar(name[0]);
  }

  lemma {:induction false} FallbackOfNone(vs: seq<BaseVendor>)
    requires forall i :: 0 <= i < |vs| ==> Lower(vs[i].vendor) !in FallbackKeys
    ensures FallbackIRA(vs) == []
  {
    if vs != [] {
      FallbackOfNone(vs[1..]);
    }
  }

  /** A vendor whose name differs from both fallback names in length or initial is no fallback. */
  lemma NotFallback(v: BaseVendor)
    requires |v.vendor| != 19
    requires |v.vendor| == 7 ==> LowerChar(v.vendor[0]) != 'm'
    ensures Lower(v.vendor) !in FallbackKeys
  {
    if Lower(v.vendor) in FallbackKeys {
      FallbackKeyShape(v.vendor);
    }
  }

  /**
   * Of the two fallback names only "Midland" is in the catalog: the
   * catalog's entry is "NLGroup", not "National Life Group".
   */
  lemma FallbackIsMidland()
    ensures FallbackIRA(BaseVendors) == [Midland]
  {
    var a := [AmericanEquity, Athene, AuguStar, AxCorebridge, AxNorthAmerican, FandG, GlobalAtlantic];
    var b := [Nationwide, NLGroup, SecurityBenefit, Symetra];
    CatalogAroundMidland(a, b);
    NoFallbackBeforeMidland(a);
    NoFallbackAfterMidland(b);
    MidlandIsFallbackKey();
    FallbackAround(a, Midland, b);
  }

  lemma CatalogAroundMidland(a: seq<BaseVendor>, b: seq<BaseVendor>)
    requires a == [AmericanEquity, Athene, AuguStar, AxCorebridge, AxNorthAmerican, FandG, GlobalAtlantic]
    requires b == [Nationwide, NLGroup, SecurityBenefit, Symetra]
    ensures BaseVendors == a + [Midland] + b
  {
  }

  lemma MidlandIsFallbackKey()
    ensures Lower(Midland.vendor) in FallbackKeys
  {
    assert Lower("Midland") == "midland";
  }

  lemma NoFallbackBeforeMidland(a: seq<BaseVendor>)
    requires a == [AmericanEquity, Athene, AuguStar, AxCorebridge, AxNorthAmerican, FandG, GlobalAtlantic]
    ensures FallbackIRA(a) == []
  {
    NotFallback(AmericanEquity);
    NotFallback(Athene);
    NotFallback(AuguStar);
    NotFallback(AxCorebridge);
    NotFallback(AxNorthAmerican);
    NotFallback(FandG);
    NotFallback(GlobalAtlantic);
    FallbackOfNone(a);
  }

  lemma NoFallbackAfterMidland(b: seq<BaseVendor>)
    requires b == [Nationwide, NLGroup, SecurityBenefit, Symetra]
    ensures FallbackIRA(b) == []
  {
    NotFallback(Nationwide);
    NotFallback(NLGroup);
    NotFallback(SecurityBenefit);
    NotFallback(Symetra);
    FallbackOfNone(b);
  }

  /** The one fallback entry between two stretches without any is the whole fallback list. */
  lemma FallbackAround(a: seq<BaseVendor>, m: BaseVendor, b: seq<BaseVendor>)
    requires FallbackIRA(a) == [] && FallbackIRA(b) == []
    requires Lower(m.vendor) in FallbackKeys
    ensures FallbackIRA(a + [m] + b) == [m]
  {
    assert FallbackIRA([m]) == [m] + FallbackIRA([m][1..]);
    FallbackAppend(a + [m], b);
    FallbackAppend(a, [m]);
  }

  /** A one-category vendor suits a risk label exactly when the two agree ignoring case. */
  lemma SuitsSingle(v: BaseVendor, risk: string)
    requires |v.riskScoreCategory| == 1
    ensures SuitsRisk(v, risk) <==> Lower(v.riskScoreCategory[0]) == Lower(risk)
  {
  }

  /** Which of the first five entries are conservative. */
  lemma ConservativeTags(risk: string)
    requires Lower(risk) == "conservative"
    ensures !SuitsRisk(AmericanEquity, risk) && !SuitsRisk(Athene, risk)
    ensures SuitsRisk(AuguStar, risk) && !SuitsRisk(AxCorebridge, risk)
    ensures SuitsRisk(AxNorthAmerican, risk)
  {
    assert Lower("Conservative") == "conservative";
    assert AmericanEquity.riskScoreCategory[1..] == ["Most Aggressive"];
    SuitsSingle(Athene, risk);
    SuitsSingle(AuguStar, risk);
    SuitsSingle(AxCorebridge, risk);
    SuitsSingle(AxNorthAmerican, risk);
  }

  /** When only the third and fifth of the first five vendors suit the risk, those two are the first two kept. */
  lemma ThirdAndFifthKept(vendors: seq<BaseVendor>, risk: string)
    requires |vendors| >= 5
    requires !SuitsRisk(vendors[0], risk) && !SuitsRisk(vendors[1], risk) && SuitsRisk(vendors[2], risk)
    requires !SuitsRisk(vendors[3], risk) && SuitsRisk(vendors[4], risk)
    ensures Take(KeepSuiting(vendors, risk), 2) == [vendors[2], vendors[4]]
  {
    KeepFirstThree(vendors, risk);
    KeepNextTwo(vendors, risk);
    var k4 := KeepSuiting(vendors[3..], risk);
    var k := KeepSuiting(vendors, risk);
    assert k[1] == k4[0] == vendors[4];
    assert k[..2] == [vendors[2], vendors[4]];
  }

  lemma KeepFirstThree(vendors: seq<BaseVendor>, risk: string)
    requires |vendors| >= 3
    requires !SuitsRisk(vendors[0], risk) && !SuitsRisk(vendors[1], risk) && SuitsRisk(vendors[2], risk)
    ensures KeepSuiting(vendors, risk) == [vendors[2]] + KeepSuiting(vendors[3..], risk)
  {
    assert vendors[0..] == vendors;
    DroppedStep(vendors, 0, risk);
    DroppedStep(vendors, 1, risk);
    KeptStep(vendors, 2, risk);
  }

  lemma KeepNextTwo(vendors: seq<BaseVendor>, risk: string)
    requires |vendors| >= 5
    requires !SuitsRisk(vendors[3], risk) && SuitsRisk(vendors[4], risk)
    ensures KeepSuiting(vendors[3..], risk) == [vendors[4]] + KeepSuiting(vendors[5..], risk)
  {
    DroppedStep(vendors, 3, risk);
    KeptStep(vendors, 4, risk);
  }

  /** One step of the filter over a vendor it keeps. */
  lemma KeptStep(vendors: seq<BaseVendor>, i: nat, risk: string)
    requires i < |vendors| && SuitsRisk(vendors[i], risk)
    ensures KeepSuiting(vendors[i..], risk) == [vendors[i]] + KeepSuiting(vendors[i + 1..], risk)
  {
    assert vendors[i..][0] == vendors[i] && vendors[i..][1..] == vendors[i + 1..];
  }

  /** One step of the filter over a vendor it drops. */
  lemma DroppedStep(vendors: seq<BaseVendor>, i: nat, risk: string)
    requires i < |vendors| && !SuitsRisk(vendors[i], risk)
    ensures KeepSuiting(vendors[i..], risk) == KeepSuiting(vendors[i + 1..], risk)
  {
    assert vendors[i..][0] == vendors[i] && vendors[i..][1..] == vendors[i + 1..];
  }

  /**
   * Without a district, a user whose risk label is "conservative" in any
   * letter case is shown the first two conservative entries.
   */
  lemma ConservativeWithoutDistrict(risk: string)
    requires Lower(risk) == "conservative"
    ensures GetRecommendations(None, Some(risk)).top403b == [AuguStar, AxNorthAmerican]
  {
    ConservativeTags(risk);
    var c := BaseVendors;
    assert c[0] == AmericanEquity && c[1] == Athene && c[2] == AuguStar;
    assert c[3] == AxCorebridge && c[4] == AxNorthAmerican;
    TopPicksWithoutDistrict(c, risk);
  }

  /** Without a district, a catalog whose first five entries suit the label only at the third and fifth shows those two. */
  lemma TopPicksWithoutDistrict(catalog: seq<BaseVendor>, risk: string)
    requires |catalog| >= 5 && risk != ""
    requires !SuitsRisk(catalog[0], risk) && !SuitsRisk(catalog[1], risk) && SuitsRisk(catalog[2], risk)
    requires !SuitsRisk(catalog[3], risk) && SuitsRisk(catalog[4], risk)
    ensures Recommend(catalog, None, Some(risk)).top403b == [catalog[2], catalog[4]]
  {
    ThirdAndFifthKept(catalog, risk);
    NoDistrictBranch(catalog, Some(risk));
  }

  /** Matching compares whole names: a district carrier named "NLG" never matches the catalog's "NLGroup". */
  lemma NlgIsNotNLGroup()
    ensures NameKey("NLG") != NameKey(NLGroup.vendor)
  {
    assert Lower("NLGroup") == "nlgroup";
    TrimStartFixed("nlgroup");
    TrimEndFixed("nlgroup");
  }

  /** A district carrying a carrier named "Midland" gets the catalog's Midland in its intersection. */
  lemma MidlandCarrierMatches(carriers: seq<Carrier>, i: int)
    requires 0 <= i < |carriers| && carriers[i].name == "Midland"
    ensures Midland in Intersect(BaseVendors, carriers)
  {
    assert BaseVendors[7] == Midland;
    assert AnyCarrierNamed(carriers, NameKey(Midland.vendor));
  }
}

/**
 * The recommendation endpoint reading what the seed wrote: the database
 * lookup by district name, over the seeded district map and carrier list.
 */
module SeededLookup {
  import opened Types
  import opened Strings
  import opened Catalog
  import opened VendorLogic
  import opened CatalogRecommendations
  import opened RecommendationsApi
  import opened Seed

  /** The carriers that belong to the district `name`, in creation order. */
  function CarriersOf(carriers: seq<Carrier>, name: string): (r: seq<Carrier>)
    ensures |r| <= |carriers|
    ensures forall c :: c in r <==> c in carriers && c.district == name
  {
    if carriers == [] then []
    else if carriers[0].district == name then [carriers[0]] + CarriersOf(carriers[1..], name)
    else CarriersOf(carriers[1..], name)
  }

  /** `findUnique({ where: { name }, include: { carriers: true } })` over the stored districts and carriers. */
  function StoreLookup(districts: map<string, District>, carriers: seq<Carrier>): (lookup: string -> Option<seq<Carrier>>)
    ensures forall name :: lookup(name).Some? <==> name in districts
    ensures forall name :: name in districts ==> lookup(name) == Some(CarriersOf(carriers, name))
  {
    name => if name in districts then Some(CarriersOf(carriers, name)) else None
  }

  lemma {:induction false} InFlatten(chunks: seq<seq<Carrier>>, k: int, c: Carrier)
    requires 0 <= k < |chunks| && c in chunks[k]
    ensures c in Flatten(chunks)
  {
    var init := chunks[..|chunks| - 1];
    if k < |chunks| - 1 {
      assert init[k] == chunks[k];
      InFlatten(init, k, c);
    }
  }

  /** Every district a row seeds gets a carrier named "Midland". */
  lemma SeededMidland(rows: seq<Row>, i: int, parse: string -> Option<real>)
    requires 0 <= i < |rows| && RowName(rows[i]) != ""
    ensures exists k :: (0 <= k < |CarriersOf(SeededCarriers(rows, parse), RowName(rows[i]))|
      && CarriersOf(SeededCarriers(rows, parse), RowName(rows[i]))[k].name == "Midland")
  {
    var name := RowName(rows[i]);
    var chunk := RowCarriers(rows[i], parse);
    var midland := chunk[1];
    assert midland.name == "Midland" && midland.district == name;
    assert Outputs(rows, parse)[i] == chunk;
    InFlatten(Outputs(rows, parse), i, midland);
    var own := CarriersOf(SeededCarriers(rows, parse), name);
    assert midland in own;
    var k :| 0 <= k < |own| && own[k] == midland;
  }

  lemma MidlandInCatalog()
    ensures Midland in BaseVendors
  {
    assert BaseVendors[7] == Midland;
  }

  /**
   * A district carrying Midland, asked with no risk label or a conservative
   * one, gets at least one top pick.
   */
  lemma MidlandGivesTopPick(own: seq<Carrier>, k: int, risk: Option<string>)
    requires 0 <= k < |own| && own[k].name == "Midland"
    requires IsFalsy(risk) || Lower(risk.value) == "conservative"
    ensures |GetRecommendations(Some(own), risk).top403b| >= 1
    ensures GetRecommendations(Some(own), risk).message != NoMatchMessage
  {
    assert AnyCarrierNamed(own, NameKey(Midland.vendor));
    if !IsFalsy(risk) {
      SuitsSingle(Midland, risk.value);
      assert Lower("Conservative") == "conservative";
    }
    MidlandInCatalog();
    TopPickIffMatch(BaseVendors, own, risk);
  }

  /**
   * Every seeded district carries Midland, which the catalog lists as
   * conservative: asking for a seeded district, with no risk label or a
   * conservative one, always yields at least one top pick.
   */
  lemma SeededDistrictHasTopPick(rows: seq<Row>, i: int, parse: string -> Option<real>,
                                 rawDistrict: string, rawRisk: Option<string>)
    requires 0 <= i < |rows| && RowName(rows[i]) != "" && Trim(rawDistrict) == RowName(rows[i])
    requires IsFalsy(UserRisk(rawRisk)) || Lower(UserRisk(rawRisk).value) == "conservative"
    ensures var r := Post(rawDistrict, rawRisk, StoreLookup(SeededDistricts(map[], rows), SeededCarriers(rows, parse)));
      |r.recommendations.top403b| >= 1 && r.recommendations.message != NoMatchMessage
  {
    var name := RowName(rows[i]);
    LatestRowWins(map[], rows, name);
    SeededMidland(rows, i, parse);
    var own := CarriersOf(SeededCarriers(rows, parse), name);
    var k :| 0 <= k < |own| && own[k].name == "Midland";
    MidlandGivesTopPick(own, k, UserRisk(rawRisk));
  }

  /** A name the seed never stored is answered as if no district had been given. */
  lemma UnseededNameIsNoDistrict(rows: seq<Row>, parse: string -> Option<real>, rawDistrict: string, rawRisk: Option<string>)
    requires forall i :: 0 <= i < |rows| ==> RowName(rows[i]) != Trim(rawDistrict)
    ensures var lookup := StoreLookup(SeededDistricts(map[], rows), SeededCarriers(rows, parse));
      Post(rawDistrict, rawRisk, lookup).recommendations == Post("", rawRisk, lookup).recommendations
  {
    LatestRowWins(map[], rows, Trim(rawDistrict));
    UnknownDistrictIsNoDistrict(rawDistrict, rawRisk, StoreLookup(SeededDistricts(map[], rows), SeededCarriers(rows, parse)));
  }
}

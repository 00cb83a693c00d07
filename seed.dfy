/**
 * The database seed: each CSV row describes one school district and the
 * carriers approved for it. Rows are cleaned, the district is upserted by
 * name, and the row's carriers are appended. The CSV file and the database
 * are not part of this model: rows arrive as maps from header to cell, and
 * the store is a map of districts plus a growing sequence of carriers.
 */
module Seed {
  import opened Types
  import opened Strings

  /** One CSV row: header to cell. A header the row lacks reads as missing. */
  type Row = map<string, string>

  /** A district record; `name` is its unique key. */
  datatype District = District(name: string, state: string, county: string, city: string, ncesId: string, tpaName: string)

  /** `row[header]`, which is `undefined` when the row lacks the header. */
  function Cell(row: Row, header: string): (r: Option<string>)
    ensures r.Some? <==> header in row
  {
    if header in row then Some(row[header]) else None
  }

  /** `t.toLowerCase() === 'none'`, spelled out letter by letter. */
  predicate ReadsNone(t: string) {
    |t| == 4 && LowerChar(t[0]) == 'n' && LowerChar(t[1]) == 'o' && LowerChar(t[2]) == 'n' && LowerChar(t[3]) == 'e'
  }

  /** The letter-by-letter test is the lower-cased comparison. */
  lemma ReadsNoneIsLowerNone(t: string)
    ensures ReadsNone(t) <==> Lower(t) == "none"
  {
    if Lower(t) == "none" {
      assert Lower(t)[0] == 'n' && Lower(t)[1] == 'o' && Lower(t)[2] == 'n' && Lower(t)[3] == 'e';
    }
  }

  /** A value `cleanString` blanks out: missing, empty, or "none" in any letter case once trimmed. */
  predicate IsBlankCell(value: Option<string>) {
    value == None || value == Some("") || ReadsNone(Trim(value.value))
  }

  /**
   * `cleanString`: `""` for a missing, empty or "none" value, the trimmed
   * value otherwise; it never makes up text the cell did not hold.
   */
  function CleanString(value: Option<string>): (r: string)
    ensures IsBlankCell(value) ==> r == ""
    ensures r == "" || (value.Some? && r == Trim(value.value))
  {
    if IsBlankCell(value) then "" else Trim(value.value)
  }

  /** A cleaned value is trimmed, never reads "none", and is empty exactly for a blank or all-whitespace cell. */
  lemma CleanStringShape(value: Option<string>)
    ensures var r := CleanString(value);
      Trim(r) == r && !ReadsNone(r)
      && (r == "" <==> IsBlankCell(value) || Trim(value.value) == "")
  {
    var r := CleanString(value);
    if r == "" {
      TrimStartFixed(r);
      TrimEndFixed(r);
    } else {
      TrimIdempotent(value.value);
    }
  }

  /** Cleaning a cleaned value changes nothing. */
  lemma CleanStringIdempotent(value: Option<string>)
    ensures CleanString(Some(CleanString(value))) == CleanString(value)
  {
    CleanStringShape(value);
  }

  /**
   * `cleanNumber`, with JavaScript's `Number(value)` as `parse` (`None` for
   * NaN): 0 for a blank cell or an unparsable one, the parsed number
   * otherwise.
   */
  function CleanNumber(value: Option<string>, parse: string -> Option<real>): (r: real)
    ensures IsBlankCell(value) ==> r == 0.0
    ensures r != 0.0 ==> !IsBlankCell(value) && parse(value.value) == Some(r)
    ensures !IsBlankCell(value) && parse(value.value).Some? ==> r == parse(value.value).value
  {
    if IsBlankCell(value) then 0.0
    else match parse(value.value)
      case None => 0.0
      case Some(x) => x
  }

  /** A flag column reads as set exactly when its cell is not blank and parses to 1. */
  lemma FlagIsOne(value: Option<string>, parse: string -> Option<real>)
    ensures CleanNumber(value, parse) == 1.0 <==> !IsBlankCell(value) && parse(value.value) == Some(1.0)
  {
  }

  /** Trims every piece and drops the empty ones: `.map(v => v.trim()).filter(Boolean)`. */
  function NonEmptyTrimmed(pieces: seq<string>): (r: seq<string>)
    ensures |r| <= |pieces|
    ensures forall i :: 0 <= i < |r| ==> r[i] != "" && Trim(r[i]) == r[i]
  {
    if pieces == [] then []
    else
      TrimIdempotent(pieces[0]);
      (if Trim(pieces[0]) == "" then [] else [Trim(pieces[0])]) + NonEmptyTrimmed(pieces[1..])
  }

  /** The kept pieces stay in cell order: trimming a concatenation trims each part. */
  lemma {:induction false} NonEmptyTrimmedAppend(a: seq<string>, b: seq<string>)
    ensures NonEmptyTrimmed(a + b) == NonEmptyTrimmed(a) + NonEmptyTrimmed(b)
  {
    if a == [] {
      assert a + b == b;
    } else {
      assert (a + b)[0] == a[0];
      assert (a + b)[1..] == a[1..] + b;
      NonEmptyTrimmedAppend(a[1..], b);
    }
  }

  /** Exactly the pieces whose trim is not empty are kept, trimmed. */
  lemma {:induction false} NonEmptyTrimmedKeepsAll(pieces: seq<string>)
    ensures forall x :: x in NonEmptyTrimmed(pieces) <==> x != "" && exists p :: p in pieces && Trim(p) == x
  {
    if pieces != [] {
      NonEmptyTrimmedKeepsAll(pieces[1..]);
      assert forall p :: p in pieces <==> p == pieces[0] || p in pieces[1..];
    }
  }

  /** Nothing in the trimmed pieces is a character the pieces lacked. */
  lemma {:induction false} NonEmptyTrimmedKeepsOut(pieces: seq<string>, c: char)
    requires forall i :: 0 <= i < |pieces| ==> c !in pieces[i]
    ensures forall i :: 0 <= i < |NonEmptyTrimmed(pieces)| ==> c !in NonEmptyTrimmed(pieces)[i]
  {
    if pieces != [] {
      TrimKeepsChars(pieces[0]);
      NonEmptyTrimmedKeepsOut(pieces[1..], c);
    }
  }

  /** Pieces already non-empty and trimmed pass through unchanged. */
  lemma {:induction false} NonEmptyTrimmedFixed(pieces: seq<string>)
    requires forall i :: 0 <= i < |pieces| ==> pieces[i] != "" && Trim(pieces[i]) == pieces[i]
    ensures NonEmptyTrimmed(pieces) == pieces
  {
    if pieces != [] {
      NonEmptyTrimmedFixed(pieces[1..]);
    }
  }

  /**
   * `raw ? raw.split(',').map(v => v.trim()).filter(Boolean) : []`: a
   * comma-separated cell as a list of non-empty, trimmed names; an empty cell
   * gives none.
   */
  function SplitList(raw: string): (r: seq<string>)
    ensures forall i :: 0 <= i < |r| ==> r[i] != "" && Trim(r[i]) == r[i] && ',' !in r[i]
  {
    if raw == "" then []
    else
      NonEmptyTrimmedKeepsOut(Split(raw, ','), ',');
      NonEmptyTrimmed(Split(raw, ','))
  }

  /** The names are exactly the comma-separated pieces of the cell that are not blank, each trimmed. */
  lemma SplitListKeepsAll(raw: string)
    ensures forall x :: x in SplitList(raw) <==> x != "" && exists p :: p in Split(raw, ',') && Trim(p) == x
  {
    NonEmptyTrimmedKeepsAll(Split(raw, ','));
    if raw == "" {
      assert Split(raw, ',') == [""];
      TrimStartFixed("");
      TrimEndFixed("");
    }
  }

  /** A cell written with a space after each comma reads as the bare names. */
  lemma SpacedListCell()
    ensures SplitList("A, B") == ["A", "B"]
  {
    SplitSpacedCell();
    TrimSpacedNames();
    var pieces := ["A", " B"];
    assert pieces[1..] == [" B"];
    assert NonEmptyTrimmed(pieces) == ["A"] + NonEmptyTrimmed([" B"]);
    assert NonEmptyTrimmed([" B"]) == ["B"] + NonEmptyTrimmed([]);
  }

  lemma SplitSpacedCell()
    ensures Split("A, B", ',') == ["A", " B"]
  {
    assert SplitFrom("", ',', " B") == [" B"];
    assert SplitFrom("B", ',', " ") == [" B"] by {
      assert "B"[1..] == "" && " " + ['B'] == " B";
    }
    assert SplitFrom(" B", ',', "") == [" B"] by {
      assert " B"[1..] == "B" && "" + [' '] == " ";
    }
    assert SplitFrom(", B", ',', "A") == ["A", " B"] by {
      assert ", B"[1..] == " B";
    }
    assert "A, B"[1..] == ", B" && "" + ['A'] == "A";
  }

  lemma TrimSpacedNames()
    ensures Trim("A") == "A" && Trim(" B") == "B"
  {
    TrimStartFixed("A");
    TrimEndFixed("A");
    assert " B"[1..] == "B";
    TrimStartFixed("B");
    TrimEndFixed("B");
  }

  /** Writing a list of clean names comma-separated and reading it back gives the same list. */
  lemma SplitListRoundTrip(names: seq<string>)
    requires forall i :: 0 <= i < |names| ==> names[i] != "" && Trim(names[i]) == names[i] && ',' !in names[i]
    ensures SplitList(Join(names, ',')) == names
  {
    if names != [] {
      JoinSplitRoundTrip(names, ',');
      NonEmptyTrimmedFixed(names);
      assert names[0] <= Join(names, ',');
    }
  }

  /** `links[i] || ''`: the link at the same position, or `""` past the end of the list. */
  function LinkAt(links: seq<string>, i: nat): (r: string)
    ensures i < |links| ==> r == links[i]
    ensures i >= |links| ==> r == ""
  {
    if i < |links| then links[i] else ""
  }

  /** One carrier per name, of kind `kind`, not recommended, linked by position. */
  function OtherCarriers(names: seq<string>, links: seq<string>, kind: CarrierType, district: string): (r: seq<Carrier>)
    ensures |r| == |names|
    ensures forall i :: 0 <= i < |r| ==>
      r[i] == Carrier(names[i], kind, false, Some(LinkAt(links, i)), district)
  {
    seq(|names|, i requires 0 <= i < |names| => Carrier(names[i], kind, false, Some(LinkAt(links, i)), district))
  }

  /**
   * What the indexed loop over `names` creates, `if (name)` test included:
   * one carrier per non-empty name, with the link at the name's own position.
   */
  function CreatedCarriers(names: seq<string>, links: seq<string>, kind: CarrierType, district: string): (r: seq<Carrier>)
    ensures |r| <= |names|
    ensures forall c :: c in r ==> c.name != "" && c.kind == kind && !c.recommended && c.district == district
  {
    if names == [] then []
    else
      var k := |names| - 1;
      CreatedCarriers(names[..k], links, kind, district)
      + (if names[k] != "" then [Carrier(names[k], kind, false, Some(LinkAt(links, k)), district)] else [])
  }

  /** One more name: its carrier, if the name is not empty, follows those of the earlier names. */
  lemma CreatedStep(names: seq<string>, links: seq<string>, kind: CarrierType, district: string, i: int)
    requires 0 <= i < |names|
    ensures CreatedCarriers(names[..i + 1], links, kind, district) == CreatedCarriers(names[..i], links, kind, district)
      + (if names[i] != "" then [Carrier(names[i], kind, false, Some(LinkAt(links, i)), district)] else [])
  {
    assert names[..i + 1][..i] == names[..i];
  }

  /** The `if (name)` test never fires for a list without empty names: one carrier per name. */
  lemma {:induction false} CreatedForNamed(names: seq<string>, links: seq<string>, kind: CarrierType, district: string)
    requires forall i :: 0 <= i < |names| ==> names[i] != ""
    ensures CreatedCarriers(names, links, kind, district) == OtherCarriers(names, links, kind, district)
  {
    if names != [] {
      var k := |names| - 1;
      CreatedForNamed(names[..k], links, kind, district);
      assert OtherCarriers(names, links, kind, district)
        == OtherCarriers(names[..k], links, kind, district) + [Carrier(names[k], kind, false, Some(LinkAt(links, k)), district)];
    }
  }

  const NameHeader := "District / Orgs"
  const Names403Header := "Others 403b Vendors Names"
  const Links403Header := "Others 403b Vendors Links"
  const Names457Header := "Others 457b Vendors Names"
  const Links457Header := "Others 457b Vendors Links"

  /** The row's cleaned district name; `""` means the row is skipped. */
  function RowName(row: Row): (r: string)
    ensures r != "" ==> NameHeader in row && r == Trim(row[NameHeader])
  {
    CleanString(Cell(row, NameHeader))
  }

  /** The district a row upserts, every field cleaned. */
  function RowDistrict(row: Row): (d: District)
    ensures d.name == RowName(row)
  {
    District(RowName(row), CleanString(Cell(row, "State")), CleanString(Cell(row, "County")),
             CleanString(Cell(row, "City")), CleanString(Cell(row, "NCES ID")), CleanString(Cell(row, "TPA Name")))
  }

  function Names403(row: Row): (r: seq<string>) { SplitList(CleanString(Cell(row, Names403Header))) }
  function Links403(row: Row): (r: seq<string>) { SplitList(CleanString(Cell(row, Links403Header))) }
  function Names457(row: Row): (r: seq<string>) { SplitList(CleanString(Cell(row, Names457Header))) }
  function Links457(row: Row): (r: seq<string>) { SplitList(CleanString(Cell(row, Links457Header))) }

  /**
   * The carriers created for one district: NLG and Midland, recommended as
   * flagged and without a link, then the 403(b) and the 457(b) vendors.
   */
  function CarriersForDistrict(district: string, nlgRecommended: bool, midlandRecommended: bool,
                            names403: seq<string>, links403: seq<string>,
                            names457: seq<string>, links457: seq<string>): (r: seq<Carrier>)
    ensures |r| == 2 + |names403| + |names457|
    ensures forall i :: 0 <= i < |r| ==> r[i].district == district
  {
    [Carrier("NLG", NLG, nlgRecommended, None, district),
     Carrier("Midland", MIDLAND, midlandRecommended, None, district)]
    + OtherCarriers(names403, links403, B403, district)
    + OtherCarriers(names457, links457, B457, district)
  }

  /** The carriers one row appends: none for a skipped row. */
  function RowCarriers(row: Row, parse: string -> Option<real>): (r: seq<Carrier>)
    ensures r == [] <==> RowName(row) == ""
    ensures forall i :: 0 <= i < |r| ==> r[i].district == RowName(row)
  {
    if RowName(row) == "" then []
    else CarriersForDistrict(RowName(row),
                          CleanNumber(Cell(row, "NLG"), parse) == 1.0, CleanNumber(Cell(row, "Midland"), parse) == 1.0,
                          Names403(row), Links403(row), Names457(row), Links457(row))
  }

  /** What a row upserts: nothing for a skipped row, else its district. */
  function RowEntry(row: Row): (e: Option<District>)
    ensures e.Some? <==> RowName(row) != ""
    ensures e.Some? ==> e.value == RowDistrict(row)
  {
    if RowName(row) == "" then None else Some(RowDistrict(row))
  }

  /** The district map after one upsert keyed on the district's name. */
  function Upserted(districts: map<string, District>, entry: Option<District>): (m: map<string, District>) {
    match entry
    case None => districts
    case Some(d) => districts[d.name := d]
  }

  /** The district map after the upserts of `entries`, in order. */
  function UpsertAll(districts: map<string, District>, entries: seq<Option<District>>): (m: map<string, District>) {
    if entries == [] then districts
    else Upserted(UpsertAll(districts, entries[..|entries| - 1]), entries[|entries| - 1])
  }

  /** The chunks of carriers, concatenated in order. */
  function Flatten(chunks: seq<seq<Carrier>>): (r: seq<Carrier>) {
    if chunks == [] then []
    else Flatten(chunks[..|chunks| - 1]) + chunks[|chunks| - 1]
  }

  function Entries(rows: seq<Row>): (r: seq<Option<District>>)
    ensures |r| == |rows| && forall i :: 0 <= i < |rows| ==> r[i] == RowEntry(rows[i])
  {
    seq(|rows|, i requires 0 <= i < |rows| => RowEntry(rows[i]))
  }

  function Outputs(rows: seq<Row>, parse: string -> Option<real>): (r: seq<seq<Carrier>>)
    ensures |r| == |rows| && forall i :: 0 <= i < |rows| ==> r[i] == RowCarriers(rows[i], parse)
  {
    seq(|rows|, i requires 0 <= i < |rows| => RowCarriers(rows[i], parse))
  }

  /** The district map after upserting `rows` in order. */
  function SeededDistricts(districts: map<string, District>, rows: seq<Row>): (m: map<string, District>) {
    UpsertAll(districts, Entries(rows))
  }

  /** The carriers `rows` append, in order. */
  function SeededCarriers(rows: seq<Row>, parse: string -> Option<real>): (r: seq<Carrier>) {
    Flatten(Outputs(rows, parse))
  }

  /** The district the last entry for `name` carries, if any. */
  function LastFor(entries: seq<Option<District>>, name: string): (r: Option<District>)
    ensures r.Some? ==> r.value.name == name
  {
    if entries == [] then None
    else if entries[|entries| - 1].Some? && entries[|entries| - 1].value.name == name then entries[|entries| - 1]
    else LastFor(entries[..|entries| - 1], name)
  }

  /** Some entry is for `name`. */
  ghost predicate SomeEntryFor(entries: seq<Option<District>>, name: string) {
    exists i :: 0 <= i < |entries| && entries[i].Some? && entries[i].value.name == name
  }

  /**
   * Upserts are keyed on the name: a district is in the final map exactly
   * when it was there before or some entry is for it, and its record comes
   * from the last entry for it.
   */
  lemma {:induction false} LastUpsertWins(districts: map<string, District>, entries: seq<Option<District>>, name: string)
    ensures LastFor(entries, name).Some? <==> SomeEntryFor(entries, name)
    ensures name in UpsertAll(districts, entries) <==> name in districts || LastFor(entries, name).Some?
    ensures name in UpsertAll(districts, entries) ==>
      UpsertAll(districts, entries)[name] ==
        if LastFor(entries, name).Some? then LastFor(entries, name).value else districts[name]
  {
    if entries != [] {
      var init := entries[..|entries| - 1];
      LastUpsertWins(districts, init, name);
      if SomeEntryFor(entries, name) && !(entries[|entries| - 1].Some? && entries[|entries| - 1].value.name == name) {
        var i :| 0 <= i < |entries| && entries[i].Some? && entries[i].value.name == name;
        assert init[i] == entries[i];
      }
      if SomeEntryFor(init, name) {
        var i :| 0 <= i < |init| && init[i].Some? && init[i].value.name == name;
        assert entries[i] == init[i];
      }
    }
  }

  /**
   * For rows: the seeded map holds `name` exactly when it held it before or
   * some row's cleaned district name is `name` (never the empty name). The
   * record is the last such row's district, whether or not the name was
   * already there, and the old record when no row has the name.
   */
  lemma LatestRowWins(districts: map<string, District>, rows: seq<Row>, name: string)
    ensures name in SeededDistricts(districts, rows) <==>
      name in districts || (name != "" && exists i :: 0 <= i < |rows| && RowName(rows[i]) == name)
    ensures name != "" && (exists i :: 0 <= i < |rows| && RowName(rows[i]) == name) ==>
      exists i :: 0 <= i < |rows| && RowName(rows[i]) == name
        && SeededDistricts(districts, rows)[name] == RowDistrict(rows[i])
        && forall j :: i < j < |rows| ==> RowName(rows[j]) != name
    ensures name in districts && (name == "" || forall i :: 0 <= i < |rows| ==> RowName(rows[i]) != name) ==>
      SeededDistricts(districts, rows)[name] == districts[name]
  {
    var es := Entries(rows);
    LastUpsertWins(districts, es, name);
    LastForIsLast(es, name);
    if name != "" && exists k :: 0 <= k < |rows| && RowName(rows[k]) == name {
      var k :| 0 <= k < |rows| && RowName(rows[k]) == name;
      assert es[k].Some? && es[k].value.name == name;
      var i :| 0 <= i < |es| && es[i] == LastFor(es, name)
        && forall j :: i < j < |es| ==> !(es[j].Some? && es[j].value.name == name);
      assert RowName(rows[i]) == name;
      forall j | i < j < |rows| ensures RowName(rows[j]) != name {
        assert es[j] == RowEntry(rows[j]);
      }
    } else {
      forall i | 0 <= i < |es| ensures !(es[i].Some? && es[i].value.name == name) {
      }
    }
  }

  /** `LastFor` picks the entry after which no other entry is for the name. */
  lemma {:induction false} LastForIsLast(entries: seq<Option<District>>, name: string)
    ensures LastFor(entries, name).Some? ==>
      exists i :: 0 <= i < |entries| && entries[i] == LastFor(entries, name)
        && forall j :: i < j < |entries| ==> !(entries[j].Some? && entries[j].value.name == name)
  {
    if entries != [] {
      var n := |entries| - 1;
      var init := entries[..n];
      if entries[n].Some? && entries[n].value.name == name {
        assert entries[n] == LastFor(entries, name);
      } else if LastFor(init, name).Some? {
        LastForIsLast(init, name);
        var i :| 0 <= i < |init| && init[i] == LastFor(init, name)
          && forall j :: i < j < |init| ==> !(init[j].Some? && init[j].value.name == name);
        assert entries[i] == init[i];
        assert forall j :: i < j < |entries| ==> !(entries[j].Some? && entries[j].value.name == name) by {
          forall j | i < j < |entries| ensures !(entries[j].Some? && entries[j].value.name == name) {
            if j < n {
              assert entries[j] == init[j];
            }
          }
        }
      }
    }
  }

  /** Seeding the same rows a second time leaves the districts as they were after the first time. */
  lemma SeedDistrictsTwice(districts: map<string, District>, rows: seq<Row>)
    ensures SeededDistricts(SeededDistricts(districts, rows), rows) == SeededDistricts(districts, rows)
  {
    var es := Entries(rows);
    var once := UpsertAll(districts, es);
    var twice := UpsertAll(once, es);
    forall name | true
      ensures name in twice <==> name in once
      ensures name in twice ==> twice[name] == once[name]
    {
      LastUpsertWins(districts, es, name);
      LastUpsertWins(once, es, name);
    }
  }

  lemma {:induction false} FlattenAppend(a: seq<seq<Carrier>>, b: seq<seq<Carrier>>)
    ensures Flatten(a + b) == Flatten(a) + Flatten(b)
    decreases |b|
  {
    if b == [] {
      assert a + b == a;
    } else {
      var b' := b[..|b| - 1];
      assert (a + b)[..|a + b| - 1] == a + b';
      assert (a + b)[|a + b| - 1] == b[|b| - 1];
      FlattenAppend(a, b');
    }
  }

  /** Carriers accumulate: seeding `a` then `b` appends `a`'s carriers, then `b`'s. */
  lemma SeededCarriersAppend(a: seq<Row>, b: seq<Row>, parse: string -> Option<real>)
    ensures SeededCarriers(a + b, parse) == SeededCarriers(a, parse) + SeededCarriers(b, parse)
  {
    OutputsAppend(a, b, parse);
    FlattenAppend(Outputs(a, parse), Outputs(b, parse));
  }

  lemma OutputsAppend(a: seq<Row>, b: seq<Row>, parse: string -> Option<real>)
    ensures Outputs(a + b, parse) == Outputs(a, parse) + Outputs(b, parse)
  {
    var l, r := Outputs(a + b, parse), Outputs(a, parse) + Outputs(b, parse);
    forall i | 0 <= i < |a + b| ensures l[i] == r[i] {
      if i < |a| {
        assert (a + b)[i] == a[i];
      } else {
        assert (a + b)[i] == b[i - |a|];
      }
    }
  }

  /** Every row that is not skipped appends two fixed carriers plus one per listed 403(b) and 457(b) name. */
  lemma RowCarrierCount(row: Row, parse: string -> Option<real>)
    ensures |RowCarriers(row, parse)| ==
      if RowName(row) == "" then 0 else 2 + |Names403(row)| + |Names457(row)|
  {
  }

  /**
   * The carriers created for a district: NLG then Midland, recommended as
   * flagged and without a link, then the 403(b) and the 457(b) vendors, never
   * recommended and paired with the link at the same position or `""`; all
   * belong to the district.
   */
  lemma DistrictCarriersShape(district: string, nlgRecommended: bool, midlandRecommended: bool,
                              names403: seq<string>, links403: seq<string>,
                              names457: seq<string>, links457: seq<string>)
    ensures var cs := CarriersForDistrict(district, nlgRecommended, midlandRecommended, names403, links403, names457, links457);
      && |cs| == 2 + |names403| + |names457|
      && cs[0] == Carrier("NLG", NLG, nlgRecommended, None, district)
      && cs[1] == Carrier("Midland", MIDLAND, midlandRecommended, None, district)
      && (forall i :: 0 <= i < |names403| ==>
            cs[2 + i] == Carrier(names403[i], B403, false, Some(LinkAt(links403, i)), district))
      && (forall i :: 0 <= i < |names457| ==>
            cs[2 + |names403| + i] == Carrier(names457[i], B457, false, Some(LinkAt(links457, i)), district))
      && (forall i :: 0 <= i < |cs| ==> cs[i].district == district)
  {
    var cs := CarriersForDistrict(district, nlgRecommended, midlandRecommended, names403, links403, names457, links457);
    var o3 := OtherCarriers(names403, links403, B403, district);
    var o7 := OtherCarriers(names457, links457, B457, district);
    forall i | 0 <= i < |names403| ensures cs[2 + i] == o3[i] {
    }
    forall i | 0 <= i < |names457| ensures cs[2 + |names403| + i] == o7[i] {
    }
  }

  /** The NLG and Midland carriers of a row are recommended exactly when their columns parse to 1. */
  lemma RowFlags(row: Row, parse: string -> Option<real>)
    requires RowName(row) != ""
    ensures var cs := RowCarriers(row, parse);
      && |cs| >= 2
      && (cs[0].recommended <==> !IsBlankCell(Cell(row, "NLG")) && parse(Cell(row, "NLG").value) == Some(1.0))
      && (cs[1].recommended <==> !IsBlankCell(Cell(row, "Midland")) && parse(Cell(row, "Midland").value) == Some(1.0))
  {
    FlagIsOne(Cell(row, "NLG"), parse);
    FlagIsOne(Cell(row, "Midland"), parse);
  }

  /** Seeding one more row upserts its entry and appends its carriers. */
  lemma SeedStep(districts: map<string, District>, rows: seq<Row>, i: int, parse: string -> Option<real>)
    requires 0 <= i < |rows|
    ensures SeededDistricts(districts, rows[..i + 1]) == Upserted(SeededDistricts(districts, rows[..i]), RowEntry(rows[i]))
    ensures SeededCarriers(rows[..i + 1], parse) == SeededCarriers(rows[..i], parse) + RowCarriers(rows[i], parse)
  {
    assert Entries(rows[..i + 1])[..i] == Entries(rows[..i]);
    assert Outputs(rows[..i + 1], parse)[..i] == Outputs(rows[..i], parse);
  }

  lemma AppendAssoc(a: seq<Carrier>, b: seq<Carrier>, c: seq<Carrier>)
    ensures a + b + c == a + (b + c)
  {
  }

  /** The database the seed writes: districts keyed by name, and every carrier ever created. */
  class SeedStore {
    var districts: map<string, District>
    var carriers: seq<Carrier>

    /** Districts are filed under their own non-empty name, and every carrier belongs to a stored district. */
    ghost predicate Valid()
      reads this
    {
      && (forall name :: name in districts ==> districts[name].name == name && name != "")
      && (forall i :: 0 <= i < |carriers| ==> carriers[i].district in districts)
    }

    constructor ()
      ensures Valid()
      ensures districts == map[] && carriers == []
    {
      districts := map[];
      carriers := [];
    }

    /** `prisma.district.upsert` keyed on the name: create it, or overwrite every other field. */
    method Upsert(d: District)
      requires Valid()
      requires d.name != ""
      modifies this
      ensures Valid()
      ensures districts == old(districts)[d.name := d]
      ensures carriers == old(carriers)
    {
      districts := districts[d.name := d];
    }

    /** `prisma.carrier.create` for a carrier of a stored district. */
    method CreateCarrier(c: Carrier)
      requires Valid()
      requires c.district in districts
      modifies this
      ensures Valid()
      ensures districts == old(districts)
      ensures carriers == old(carriers) + [c]
    {
      carriers := carriers + [c];
    }

    /** The indexed loop creating one carrier per listed name. */
    method CreateOthers(names: seq<string>, links: seq<string>, kind: CarrierType, district: string)
      requires Valid()
      requires district in districts
      modifies this
      ensures Valid()
      ensures districts == old(districts)
      ensures carriers == old(carriers) + CreatedCarriers(names, links, kind, district)
    {
      for i := 0 to |names|
        invariant Valid()
        invariant districts == old(districts)
        invariant carriers == old(carriers) + CreatedCarriers(names[..i], links, kind, district)
      {
        var name := names[i];
        var link := if i < |links| then links[i] else "";
        CreatedStep(names, links, kind, district, i);
        if name != "" {
          AppendAssoc(old(carriers), CreatedCarriers(names[..i], links, kind, district), [Carrier(name, kind, false, Some(link), district)]);
          CreateCarrier(Carrier(name, kind, false, Some(link), district));
        }
      }
      assert names[..|names|] == names;
    }

    /** One pass of the row loop: skip a nameless row, else upsert its district and append its carriers. */
    method SeedRow(row: Row, parse: string -> Option<real>)
      requires Valid()
      modifies this
      ensures Valid()
      ensures districts == Upserted(old(districts), RowEntry(row))
      ensures carriers == old(carriers) + RowCarriers(row, parse)
    {
      var state := CleanString(Cell(row, "State"));
      var county := CleanString(Cell(row, "County"));
      var city := CleanString(Cell(row, "City"));
      var ncesId := CleanString(Cell(row, "NCES ID"));
      var districtName := CleanString(Cell(row, NameHeader));
      var tpaName := CleanString(Cell(row, "TPA Name"));
      var nlg := CleanNumber(Cell(row, "NLG"), parse);
      var midland := CleanNumber(Cell(row, "Midland"), parse);
      var raw403 := CleanString(Cell(row, Names403Header));
      var raw403Links := CleanString(Cell(row, Links403Header));
      var raw457 := CleanString(Cell(row, Names457Header));
      var raw457Links := CleanString(Cell(row, Links457Header));
      if districtName == "" {
        return;
      }
      Upsert(District(districtName, state, county, city, ncesId, tpaName));
      var names403 := SplitList(raw403);
      var links403 := SplitList(raw403Links);
      var names457 := SplitList(raw457);
      var links457 := SplitList(raw457Links);
      CreateDistrictCarriers(districtName, nlg == 1.0, midland == 1.0, names403, links403, names457, links457);
      CreatedForNamed(names403, links403, B403, districtName);
      CreatedForNamed(names457, links457, B457, districtName);
    }

    /** Steps 2c to 2f for one district: NLG, Midland, then the 403(b) and the 457(b) vendors. */
    method CreateDistrictCarriers(district: string, nlgRecommended: bool, midlandRecommended: bool,
                                  names403: seq<string>, links403: seq<string>,
                                  names457: seq<string>, links457: seq<string>)
      requires Valid()
      requires district in districts
      modifies this
      ensures Valid()
      ensures districts == old(districts)
      ensures carriers == old(carriers)
        + ([Carrier("NLG", NLG, nlgRecommended, None, district), Carrier("Midland", MIDLAND, midlandRecommended, None, district)]
           + CreatedCarriers(names403, links403, B403, district) + CreatedCarriers(names457, links457, B457, district))
    {
      var nlg := Carrier("NLG", NLG, nlgRecommended, None, district);
      var midland := Carrier("Midland", MIDLAND, midlandRecommended, None, district);
      CreateCarrier(nlg);
      CreateCarrier(midland);
      ghost var fixed := carriers;
      CreateOthers(names403, links403, B403, district);
      CreateOthers(names457, links457, B457, district);
      ghost var c3 := CreatedCarriers(names403, links403, B403, district);
      ghost var c7 := CreatedCarriers(names457, links457, B457, district);
      assert fixed == old(carriers) + [nlg, midland];
      AppendAssoc(old(carriers), [nlg, midland], c3);
      AppendAssoc(old(carriers), [nlg, midland] + c3, c7);
    }

    /** `main`'s loop over the rows, in file order. */
    method Seed(rows: seq<Row>, parse: string -> Option<real>)
      requires Valid()
      modifies this
      ensures Valid()
      ensures districts == SeededDistricts(old(districts), rows)
      ensures carriers == old(carriers) + SeededCarriers(rows, parse)
    {
      for i := 0 to |rows|
        invariant Valid()
        invariant districts == SeededDistricts(old(districts), rows[..i])
        invariant carriers == old(carriers) + SeededCarriers(rows[..i], parse)
      {
        SeedStep(old(districts), rows, i, parse);
        AppendAssoc(old(carriers), SeededCarriers(rows[..i], parse), RowCarriers(rows[i], parse));
        SeedRow(rows[i], parse);
      }
      assert rows[..|rows|] == rows;
    }
  }
}

# chrisbot recommendation core, in Dafny

chrisbot helps teachers pick retirement vendors. This project models four parts of it:

- **The recommendation policy** (`getRecommendations`). It takes a district's approved carriers, or none, and an optional risk label. It intersects the carrier names with a static vendor catalog, comparing lower-cased and trimmed names. It keeps the vendors of the user's risk category and shows at most two of them. A fixed IRA fallback list is always attached, and the message depends on how many vendors matched.
- **The `POST /api/recommendations` handler.** It trims the district name and the risk label, looks the district up by exact name, and echoes the inputs with the result. The database lookup is a parameter: a function from a name to the district's carriers, or to nothing.
- **The database seed.** Each CSV row is cleaned: blank or "none" cells become empty, and the NLG and Midland flag columns become numbers. The district is upserted by name. The row's carriers are appended: NLG, Midland, then the comma-separated 403(b) and 457(b) vendors with their links. The store is a class holding a map of districts and a growing sequence of carriers.
- **The per-state pension estimate.** This is a switch on the state code, with graded brackets for AK, AZ, KY and NY. It is modelled over exact `real` rates, next to a structured reference table (`Formula`, `PlanOf`) that the switch is proved to agree with.

Files, one module each (the last file holds two):

- `strings.dfy`: ASCII case mapping, trimming, split and join.
- `types.dfy`: the records.
- `catalog.dfy`: the vendor catalog.
- `recommendations_api.dfy`: the handler.
- `seed.dfy`: the seed.
- `seeded_lookup.dfy`: the handler reading what the seed wrote.
- `pension.dfy`: the pension table.
- `vendor_logic.dfy`: the policy (`VendorLogic`) and its consequences on the shipped catalog (`CatalogRecommendations`).

The proofs bring out three facts about the shipped code:

- Only one fallback vendor is ever offered. The policy's comment and messages promise two fallback IRA options, but of the names "National Life Group" and "Midland" only Midland is in the catalog, whose entry is "NLGroup" (`FallbackIsMidland`).
- The seeded "NLG" carrier never matches the catalog's "NLGroup", because names are compared whole (`NlgIsNotNLGroup`).
- Every seeded district carries Midland, so with no risk label or a conservative one it always gets a top pick (`SeededDistrictHasTopPick`).

## Model

| member | source | states |
|---|---|---|
| VendorLogic.NameKey | src/lib/vendor-logic.ts:63-65 | the lower-cased, trimmed name: never longer, and starting and ending with a non-space |
| VendorLogic.Matched | src/lib/vendor-logic.ts:62-69 | a vendor is matched exactly when it is in the catalog, some carrier has its name key, and the risk is falsy or the vendor is tagged with it; never more than the catalog |
| VendorLogic.AnyCategoryIs | src/lib/vendor-logic.ts:23 | true exactly when some category equals the risk once both are lower-cased |
| VendorLogic.KeepSuiting | src/lib/vendor-logic.ts:22-24 | keeps exactly the vendors tagged with the risk, and never grows the list |
| VendorLogic.FilterByRisk | src/lib/vendor-logic.ts:20-25 | a missing or empty risk returns the vendors unchanged; any other risk keeps exactly the vendors having a category equal to it, ignoring case |
| VendorLogic.FilterByRiskKeepsOrder | src/lib/vendor-logic.ts:20-25 | filtering keeps the input order: filtering a concatenation concatenates the filtered parts |
| VendorLogic.AnyCarrierNamed | src/lib/vendor-logic.ts:63-65 | true exactly when some carrier's lower-cased, trimmed name equals the key |
| VendorLogic.Intersect | src/lib/vendor-logic.ts:62-66 | a catalog vendor is kept exactly when some district carrier has the same lower-cased, trimmed name |
| VendorLogic.IntersectKeepsOrder | src/lib/vendor-logic.ts:64-66 | the intersection keeps catalog order |
| VendorLogic.IntersectWithoutCarriers | src/lib/vendor-logic.ts:63-66 | no carriers, no intersection |
| VendorLogic.FallbackIRA | src/lib/vendor-logic.ts:30-40 | exactly the catalog entries named "National Life Group" or "Midland", ignoring case |
| VendorLogic.Take | src/lib/vendor-logic.ts:52 | `slice(0, n)` is a prefix of length min(n, size) |
| VendorLogic.Recommend | src/lib/vendor-logic.ts:13-97 | in every branch: at most two top picks, all from the catalog, all tagged with a non-empty risk, and the same fallback list |
| VendorLogic.GetRecommendations | src/lib/vendor-logic.ts:13-97 | over the shipped catalog: at most two top picks, all catalog entries, and all tagged with the risk label when one is given |
| VendorLogic.NoDistrictBranch | src/lib/vendor-logic.ts:50-57 | without a district: no district carriers, top picks are the first two risk-filtered catalog entries, the no-district message |
| VendorLogic.DistrictBranch | src/lib/vendor-logic.ts:59-94 | with a district, even one without carriers: its carriers are echoed unchanged, top picks are the first two matches, each named by some district carrier |
| VendorLogic.MessageByMatchCount | src/lib/vendor-logic.ts:71-94 | the message is chosen by zero, one or more matches, and the three messages differ |
| VendorLogic.TopPickIffMatch | src/lib/vendor-logic.ts:62-94 | a district gets a top pick exactly when it carries a catalog vendor of the user's category, and exactly then the message is not the no-match one |
| VendorLogic.EmptyDistrictHasNoTopPicks | src/lib/vendor-logic.ts:72-79 | a district without carriers gets no top pick and the no-match message |
| VendorLogic.FalsyRisksAgree | src/lib/vendor-logic.ts:21 | a missing and an empty risk label give the same result |
| VendorLogic.FalsyRisksAgreeOnCatalog | src/lib/vendor-logic.ts:21 | the same over the shipped catalog |
| VendorLogic.FallbackIgnoresInputs | src/lib/vendor-logic.ts:30-40 | the fallback list is `FallbackIRA` of the shipped catalog, whatever the carriers and the risk |
| CatalogRecommendations.FallbackIsMidland | src/lib/vendor-logic.ts:32-36 | on the shipped catalog the fallback list is Midland alone |
| CatalogRecommendations.ConservativeWithoutDistrict | src/lib/vendor-logic.ts:51-52 | without a district, a "conservative" label in any case gives AuguStar and AX North American |
| CatalogRecommendations.NlgIsNotNLGroup | src/lib/vendor-logic.ts:63-65 | a carrier named "NLG" never matches the catalog's "NLGroup" |
| CatalogRecommendations.MidlandCarrierMatches | src/lib/vendor-logic.ts:63-66 | a carrier named "Midland" puts the catalog's Midland in the intersection |
| CatalogRecommendations.ConservativeTags | src/lib/base-vendors.ts:3-32 | which of the first five catalog entries are conservative |
| Catalog.CatalogShape | src/lib/base-vendors.ts:2-75 | twelve entries, no vendor name twice |
| Catalog.EveryEntryIsTaggedAnnuity | src/lib/base-vendors.ts:2-75 | every entry has a risk category and an annuity business type |
| Catalog.MultiCategoryVendors | src/lib/base-vendors.ts:2-75 | some vendors carry two risk categories |
| RecommendationsApi.DistrictName | src/routes/api/recommendations/+server.ts:14 | no name exactly when the trimmed input is empty, else the trimmed input |
| RecommendationsApi.UserRisk | src/routes/api/recommendations/+server.ts:16 | no label exactly when the raw label is missing or empty, else the trimmed label |
| RecommendationsApi.DistrictCarriers | src/routes/api/recommendations/+server.ts:18-29 | looked up only for a name; an unknown name gives none |
| RecommendationsApi.Post | src/routes/api/recommendations/+server.ts:9-39 | the echoed district is never empty, the echoed risk is the normalised one, and the recommendation is the policy on the looked-up carriers |
| RecommendationsApi.EchoedDistrict | src/routes/api/recommendations/+server.ts:35 | echoes the trimmed name, or "None" for a blank one |
| RecommendationsApi.BlankDistrictIgnoresLookup | src/routes/api/recommendations/+server.ts:20-21 | a blank name never reaches the database and gets the no-district message |
| RecommendationsApi.UnknownDistrictIsNoDistrict | src/routes/api/recommendations/+server.ts:26-29 | an unknown name is answered like no district |
| RecommendationsApi.PaddedDistrictSameAnswer | src/routes/api/recommendations/+server.ts:14 | padding around the name does not change the response |
| RecommendationsApi.BlankRiskIsNoFilter | src/routes/api/recommendations/+server.ts:16 | a whitespace-only label is echoed as "" and filters nothing |
| Strings.Lower | src/lib/vendor-logic.ts:63-65 | same length, no upper-case letter left, and only upper-case letters changed |
| Strings.Upper | src/lib/pension-calculator.ts:13 | same length, no lower-case letter left, and only lower-case letters changed |
| Strings.Trim | src/routes/api/recommendations/+server.ts:14 | never longer, and empty or starting and ending with a non-space |
| Strings.Split | prisma/seed.ts:120 | at least one piece, none containing the separator |
| Strings.Join | prisma/seed.ts:120 | the joined text starts with the first piece |
| Strings.TrimRemovesOnlyPadding | src/routes/api/recommendations/+server.ts:14 | `trim` removes whitespace at both ends and nothing else |
| Strings.TrimIdempotent | src/routes/api/recommendations/+server.ts:14 | trimming twice is trimming once |
| Strings.SplitJoinRoundTrip | prisma/seed.ts:120 | splitting on a separator loses nothing: joining the pieces back gives the input |
| Strings.JoinSplitRoundTrip | prisma/seed.ts:120 | joining separator-free pieces and splitting again gives the pieces |
| Strings.UpperOfLower | src/lib/pension-calculator.ts:13 | upper-casing forgets an earlier lower-casing |
| Seed.CleanString | prisma/seed.ts:11-15 | a missing, empty or "none" cell cleans to ""; any other result is the trimmed cell |
| Seed.CleanNumber | prisma/seed.ts:20-24 | a blank cell reads 0; a non-blank cell reads the parsed number when it parses; a non-zero result always comes from parsing a non-blank cell |
| Seed.ReadsNoneIsLowerNone | prisma/seed.ts:13 | the letter-by-letter test is `toLowerCase() === 'none'` |
| Seed.CleanStringShape | prisma/seed.ts:11-15 | a cleaned value is trimmed, never "none", and empty exactly for a missing, empty, "none" or all-whitespace cell |
| Seed.CleanStringIdempotent | prisma/seed.ts:11-15 | cleaning a cleaned value changes nothing |
| Seed.FlagIsOne | prisma/seed.ts:20-24 | a flag reads 1 exactly when the cell is not blank and parses to 1 |
| Seed.NonEmptyTrimmed | prisma/seed.ts:121-122 | every kept piece is non-empty and trimmed, never more than the pieces; membership is `NonEmptyTrimmedKeepsAll`, order `NonEmptyTrimmedAppend` |
| Seed.SplitList | prisma/seed.ts:118-123 | every listed name is non-empty, trimmed and free of commas; membership is `SplitListKeepsAll`, and `SpacedListCell` pins the cell order |
| Seed.NonEmptyTrimmedAppend | prisma/seed.ts:121-122 | the kept names stay in cell order: trimming a concatenation is trimming each part and concatenating |
| Seed.NonEmptyTrimmedKeepsAll | prisma/seed.ts:121-122 | a name is kept exactly when it is non-empty and the trim of some piece |
| Seed.SplitListKeepsAll | prisma/seed.ts:118-123 | a name is listed exactly when it is non-empty and the trim of some comma-separated piece of the cell |
| Seed.SpacedListCell | prisma/seed.ts:118-123 | the cell "A, B" lists "A" and "B" |
| Seed.SplitListRoundTrip | prisma/seed.ts:118-123 | a list of clean names written comma-separated reads back unchanged |
| Seed.LinkAt | prisma/seed.ts:133 | the link at the same position, or "" past the end |
| Seed.OtherCarriers | prisma/seed.ts:131-146 | one carrier per name, of the given kind, not recommended, linked by position |
| Seed.CreatedCarriers | prisma/seed.ts:131-146 | the loop's carriers: never more than the names, all named, of the given kind, not recommended, of the district |
| Seed.CreatedForNamed | prisma/seed.ts:135 | for names without an empty one, the `if (name)` test never skips: one carrier per name |
| Seed.RowName | prisma/seed.ts:57 | a non-empty name is the trimmed "District / Orgs" cell of the row |
| Seed.RowDistrict | prisma/seed.ts:53-58 | the upserted record is filed under the row's cleaned name |
| Seed.RowEntry | prisma/seed.ts:70-94 | a row upserts exactly when its cleaned name is not empty, and then its cleaned district |
| Seed.CarriersForDistrict | prisma/seed.ts:96-177 | two carriers plus one per 403(b) and 457(b) name, all of the given district |
| Seed.RowCarriers | prisma/seed.ts:53-177 | a row adds carriers exactly when its cleaned name is not empty, all of that district |
| Seed.LastUpsertWins | prisma/seed.ts:77-94 | after upserts a name is present exactly when it was before or some upsert used it, and the last upsert for it wins |
| Seed.LatestRowWins | prisma/seed.ts:52-94 | a seeded name is present exactly when it was before or some row has that non-empty name; then it holds the district of the last such row; a name no row uses keeps its earlier district |
| Seed.SeedDistrictsTwice | prisma/seed.ts:77-94 | seeding the same rows again leaves the districts unchanged |
| Seed.SeededCarriersAppend | prisma/seed.ts:52-178 | carriers accumulate: seeding a then b appends a's carriers, then b's |
| Seed.RowCarrierCount | prisma/seed.ts:96-177 | a kept row adds two carriers plus one per listed 403(b) and 457(b) name; a skipped row adds none |
| Seed.DistrictCarriersShape | prisma/seed.ts:96-177 | NLG then Midland, flagged and without a link, then the 403(b) and the 457(b) vendors with their links, all of the district |
| Seed.RowFlags | prisma/seed.ts:96-114 | NLG and Midland are recommended exactly when their columns parse to 1 |
| Seed.SeedStep | prisma/seed.ts:52-178 | one more row upserts its entry and appends its carriers |
| Seed.SeedStore.Upsert | prisma/seed.ts:77-94 | creates or overwrites the district under its name and leaves the carriers alone |
| Seed.SeedStore.CreateCarrier | prisma/seed.ts:97-104 | appends one carrier of a stored district |
| Seed.SeedStore.CreateOthers | prisma/seed.ts:131-146 | appends the carriers of the non-empty names, in order |
| Seed.SeedStore.CreateDistrictCarriers | prisma/seed.ts:96-177 | appends NLG, Midland and the listed vendors |
| Seed.SeedStore.SeedRow | prisma/seed.ts:53-177 | upserts the row's district and appends its carriers, or changes nothing for a nameless row |
| Seed.SeedStore.Seed | prisma/seed.ts:52-178 | the store ends as the seeded districts and carriers of all rows, with every carrier's district stored |
| SeededLookup.CarriersOf | src/routes/api/recommendations/+server.ts:22-25 | exactly the stored carriers of the named district |
| SeededLookup.StoreLookup | src/routes/api/recommendations/+server.ts:22-28 | finds exactly the stored names, with their carriers |
| SeededLookup.SeededMidland | prisma/seed.ts:106-114 | every seeded district carries a "Midland" carrier |
| SeededLookup.MidlandGivesTopPick | src/lib/vendor-logic.ts:62-94 | a district carrying Midland gets a top pick with no risk label or a conservative one |
| SeededLookup.SeededDistrictHasTopPick | src/routes/api/recommendations/+server.ts:9-39 | asking for any seeded district with no label or a conservative one yields at least one top pick |
| SeededLookup.UnseededNameIsNoDistrict | src/routes/api/recommendations/+server.ts:26-29 | a name no row seeded is answered like no district |
| Pension.CalculatePension | src/lib/pension-calculator.ts:12-273 | the switch on the upper-cased code; its contract is `CalculateFollowsPlan` and the plan lemmas below |
| Pension.CalculateFollowsPlan | src/lib/pension-calculator.ts:12-273 | the switch equals the plan table: the state's formula times the salary, 0 without a plan |
| Pension.ArizonaValue | src/lib/pension-calculator.ts:29-43 | AZ's rate is chosen by bracket and applied to all years |
| Pension.KentuckyValue | src/lib/pension-calculator.ts:99-121 | KY's graded formula, bracket by bracket |
| Pension.NewYorkValue | src/lib/pension-calculator.ts:181-194 | NY's three cases |
| Pension.ValueAtZero | src/lib/pension-calculator.ts:12-273 | no service, no pension, for every rising formula |
| Pension.ValueMonotone | src/lib/pension-calculator.ts:12-273 | a rising formula never falls as service grows |
| Pension.CappedGrowth | src/lib/pension-calculator.ts:99-121 | a graded formula grows by at most its highest rate per year, so no boundary is a jump |
| Pension.PlansRise | src/lib/pension-calculator.ts:12-273 | every state's formula is rising |
| Pension.PensionMonotoneInYears | src/lib/pension-calculator.ts:12-273 | with a non-negative salary, more years never lower the estimate |
| Pension.PensionNonNegative | src/lib/pension-calculator.ts:12-273 | non-negative years and salary give a non-negative estimate |
| Pension.PensionLinearInSalary | src/lib/pension-calculator.ts:12-273 | the estimate is linear in the salary |
| Pension.StateCodeCaseInsensitive | src/lib/pension-calculator.ts:13 | the state code is read ignoring case |
| Pension.UnknownStateIsZero | src/lib/pension-calculator.ts:269-272 | a code without a plan gives 0 |
| Pension.DistrictOfColumbiaIsZero | src/lib/pension-calculator.ts:269-272 | DC gives 0 |
| Pension.FlatStateExamples | src/lib/pension-calculator.ts:14-16 | AL pays 1.65% and CA (any case) 2% of salary per year |
| Pension.AlaskaAtTwenty | src/lib/pension-calculator.ts:18-28 | AK gives 40% of salary at 20 years |
| Pension.KentuckyBoundaries | src/lib/pension-calculator.ts:99-121 | at 10, 20, 26 and 30 years KY gives 17%, 37%, 50.8% and 60.8% of salary |
| Pension.NewYorkAroundTwenty | src/lib/pension-calculator.ts:181-194 | NY: 1.67% a year below 20, exactly 35% at 20, 35% plus 2% a year beyond |
| Pension.ArizonaStepsUp | src/lib/pension-calculator.ts:29-43 | AZ: 19 years give 39.9% and 20 years 43% of salary |
| Pension.GradedPlansHaveNoJump | src/lib/pension-calculator.ts:18-121 | AK and KY grow by at most 2.5% and 3% of salary per extra year |
| Pension.IncomeGap | src/routes/api/pension/+server.ts:12-15 | the salary minus the estimate; its bounds are `IncomeGapBounds` |
| Pension.IncomeGapBounds | src/routes/api/pension/+server.ts:12-15 | the income gap never exceeds the salary, and equals it without a plan |

## Left out

- File, database and network I/O are not modelled: the CSV stream, Prisma calls, `json()` responses, `console` and `process.exit`. Rows arrive as maps from header to cell, and the database is a map plus a sequence.
- JavaScript's `Number()` inside `cleanNumber` is a parameter `parse` (`None` for NaN), not a model of number syntax.
- `toLowerCase`, `toUpperCase` and `trim` are modelled on ASCII letters and ASCII whitespace, not full Unicode.
- Non-string JSON values for the district or the risk are not modelled: the risk is an optional string and a missing district is `""`. This leaves out `rawRisk.toString()` on numbers and the exception `trim` throws on a non-string district.
- Pension rates are exact reals; IEEE-754 rounding is not modelled.
- The pension route's error response is left out; its only logic, the income gap, is `IncomeGap`.
- Prisma's numeric ids are not modelled: a carrier refers to its district by the district's unique name.
- The carriers `include: { carriers: true }` returns are taken in creation order.
- `getFallbackIRA` takes the user's risk and never reads it, so `FallbackIRA` has no risk parameter.
- Seed.CleanString: the function states the blank and trimmed cases; that the result is trimmed and never "none" is stated by `CleanStringShape`, to keep callers cheap to verify.
- Pension.CalculatePension: the function carries no `ensures`; its contract is stated through `CalculateFollowsPlan` and the lemmas about the plan table.
- Pension.IncomeGap: the function carries no `ensures`; its bounds are stated by `IncomeGapBounds`.
- The other routes (districts list, risk-score echo, external registration), the Sentry hook and the database client setup contain no logic and are not part of this model.
- Fuzzy district matching, per-vendor growth tables, preferred vendor pairs, a random filler vendor and a self-enrolment flag do not occur in the code, so they are not modelled.

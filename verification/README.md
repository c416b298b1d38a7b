# Parametric module: parts-resolution engine

A Dafny model of the engine that turns the parameters of a parametric
enclosure module (outer width, outer height, finish) into a Bill of
Materials (BOM) by matching structural roles against a parts catalog.

- `types.dfy` (module `Types`): the record shapes. Catalog items have
  per-axis dimension constraints, each absent, exact or an inclusive range.
  Module parameters are width, height and finish. A BOM line is a part
  number, a quantity and an optional description. The module also holds the
  part-number view of a BOM (`PartIds`), key uniqueness (`UniqueIds`) and
  the total quantity (`Total`).
- `part_lookup.dfy` (module `PartLookup`): the dimension predicate with its
  strict tolerance of 1 for exact sizes, substring containment, the query a
  role issues, and the first-match search over the catalog (`FindIndex`,
  `FindPart`).
- `bom_calculator.dfy` (module `BomCalculator`) has four parts:
  - the keyed, order-preserving accumulator: the pure step `AddItem`, and
    the class `BomList` whose `Add` method updates its `items` in place
    after a search loop (`FindEntry`);
  - the fixed table of eight roles, in order: TOP ×1, BOTTOM ×1,
    SIDE-HEIGHT ×2, SIDE-WIDTH ×2, HORIZONTAL ×8, VERTICAL ×4, CORNER ×4,
    SCREW ×24;
  - the pure fold `Collect` over the outcomes of the role lookups;
  - the straight-line `CalculateBom`, which issues the eight lookups in
    table order and is proved equal to the fold.

The catalog is a parameter; it is not read from a file. Sizes are `real`
numbers.

A part-number pattern is checked only when it is non-empty, because the code
guards the check with the truthiness of the pattern. Read as an optional
parameter, an empty pattern would also be checked; the two readings agree,
since every string contains the empty string (`IncludesEmpty`).

## Model

| member | source | states |
|---|---|---|
| PartLookup.MatchesDimension | src/utils/bomCalculator.ts:9-18 | an absent constraint accepts every size; an exact size `c` accepts `v` iff `c - 1 < v < c + 1`; a range accepts `v` iff `min <= v <= max` |
| PartLookup.ExactToleranceBoundary | src/utils/bomCalculator.ts:14-15 | 500 accepts 500.999 and 499.001 but not 501, 499 or 498.9 (the tolerance is strict) |
| PartLookup.RangeInclusiveBoundary | src/utils/bomCalculator.ts:17 | the range 400..600 accepts both ends and rejects 399.999 and 600.001 |
| PartLookup.IncludesIffSplit | src/utils/bomCalculator.ts:35 | substring containment holds iff the string splits as prefix + pattern + suffix |
| PartLookup.IncludesEmpty | src/utils/bomCalculator.ts:35 | every part number contains the empty pattern |
| PartLookup.Includes | src/utils/bomCalculator.ts:35 | substring containment, as `includes`; specified by IncludesIffSplit and IncludesEmpty |
| PartLookup.Accepts | src/utils/bomCalculator.ts:31-44 | the `find` callback: category, finish, non-empty pattern, queried width, queried height; OmittedAxisIgnored shows which fields it reads |
| PartLookup.FindIndex | src/utils/bomCalculator.ts:30-46 | the search result is an index inside the catalog |
| PartLookup.FindIndexFirst | src/utils/bomCalculator.ts:30-46 | the search returns an accepted index with no accepted index before it, and `None` iff no entry passes the category, finish, pattern, width and height checks |
| PartLookup.FindPartFirst | src/utils/bomCalculator.ts:23-47 | `FindPart` is `None` iff no entry is accepted; otherwise it is an accepted catalog entry preceded by no accepted entry |
| PartLookup.FindPart | src/utils/bomCalculator.ts:23-47 | the first accepted catalog entry or `None`; specified by FindPartFirst |
| PartLookup.OmittedAxisIgnored | src/utils/bomCalculator.ts:38-43 | catalogs that differ only in axes the query omits (and in depth and description) give the same match |
| PartLookup.FirstMatchStable | src/utils/bomCalculator.ts:30-46 | appending entries never changes an existing match; with no match in the prefix, the search continues into the appended entries |
| BomCalculator.AddItem | src/utils/bomCalculator.ts:52-59 | the accumulator step as a value; specified by AddItemExisting and AddItemAbsent, with AddItemIds, AddItemKeepsUnique, AddItemTotal, AddItemQuantities and AddItemPositive |
| BomCalculator.AddItemExisting | src/utils/bomCalculator.ts:53-55 | a listed part: only its first line changes, and only by `quantity` (length, order, other lines and description unchanged) |
| BomCalculator.AddItemAbsent | src/utils/bomCalculator.ts:56-58 | an unlisted part: exactly one new line, at the end |
| BomCalculator.AddItemIds | src/utils/bomCalculator.ts:52-59 | the part numbers are unchanged if the part was listed, and the part is appended otherwise |
| BomCalculator.AddItemKeepsUnique | src/utils/bomCalculator.ts:52-59 | pairwise distinct part numbers stay pairwise distinct |
| BomCalculator.AddItemTotal | src/utils/bomCalculator.ts:52-59 | the total quantity grows by exactly `quantity` |
| BomCalculator.AddItemQuantities | src/utils/bomCalculator.ts:52-59 | with distinct part numbers, only the matching line's quantity grows, and a new line carries `quantity` |
| BomCalculator.AddItemPositive | src/utils/bomCalculator.ts:52-59 | adding a positive quantity to a BOM of positive lines leaves every line positive |
| BomCalculator.FindEntry | src/utils/bomCalculator.ts:53 | finds the first line with the part number, or reports that none has it |
| BomCalculator.BomList.constructor | src/utils/bomCalculator.ts:65 | a new BOM is empty |
| BomCalculator.BomList.Add | src/utils/bomCalculator.ts:52-59 | the in-place update yields `AddItem` of the old lines: same length when the part was listed, one line appended when it was not |
| BomCalculator.RoleTable | src/utils/bomCalculator.ts:68-114 | the eight roles in call order, with their category, pattern, queried axes and multiplier; RoleTableMultipliers sums the multipliers |
| BomCalculator.RoleQuery | src/utils/bomCalculator.ts:69-111 | the arguments of one `findPart` call: the role's category and pattern, the module's finish, width and height only where the role passes them |
| BomCalculator.MatchOf | src/utils/bomCalculator.ts:69-111 | one role's `findPart` result with its multiplier; MatchesAt ties it to the role's position |
| BomCalculator.Matches | src/utils/bomCalculator.ts:68-114 | one lookup outcome per role |
| BomCalculator.MatchesAt | src/utils/bomCalculator.ts:68-114 | outcome `k` is the catalog lookup of role `k` with that role's multiplier |
| BomCalculator.MatchesConcat | src/utils/bomCalculator.ts:68-114 | looking up two role lists in sequence is looking up their concatenation |
| BomCalculator.MatchesSum | src/utils/bomCalculator.ts:68-114 | the outcomes carry the roles' multipliers whether or not a part was found |
| BomCalculator.RoleTableMultipliers | src/utils/bomCalculator.ts:71-113 | the table's multipliers 1, 1, 2, 2, 8, 4, 4, 24 add up to 46 |
| BomCalculator.Step | src/utils/bomCalculator.ts:70-72 | one `if (part) addBOMItem(...)` block: no change without a part, otherwise AddItem with the multiplier; AddRole proves the method equal to it |
| BomCalculator.Collect | src/utils/bomCalculator.ts:65-116 | the fold of Step over the role outcomes; specified by CollectOrder, CollectUnique, CollectLength, CollectTotal, CollectQuantities and CollectPositive |
| BomCalculator.CollectSnoc | src/utils/bomCalculator.ts:68-114 | proof helper: unfolds Collect for one more outcome at the end (used by CollectEight, UnmatchedSkipped, CollectMergeLast, TopBottomMerged) |
| BomCalculator.CollectEight | src/utils/bomCalculator.ts:68-114 | eight outcomes accumulate as eight steps in order |
| BomCalculator.CollectOrder | src/utils/bomCalculator.ts:64-117 | the lines appear in first-resolution order: the part numbers are the found parts with later repeats removed |
| BomCalculator.CollectUnique | src/utils/bomCalculator.ts:64-117 | no two lines share a part number |
| BomCalculator.CollectLength | src/utils/bomCalculator.ts:64-117 | at most one line per role |
| BomCalculator.CollectTotal | src/utils/bomCalculator.ts:64-117 | the total quantity is the sum of the multipliers of the roles that found a part |
| BomCalculator.CollectQuantities | src/utils/bomCalculator.ts:64-117 | each line's quantity is the sum of the multipliers of the roles that found that part; a part without a line was found by no role |
| BomCalculator.UnmatchedSkipped | src/utils/bomCalculator.ts:68-114 | an outcome that found no part can be removed from any position without changing the BOM |
| BomCalculator.MissingRoleSkipped | src/utils/bomCalculator.ts:68-114 | a role whose lookup fails contributes nothing: the BOM equals the BOM of the other roles |
| BomCalculator.CollectPositive | src/utils/bomCalculator.ts:64-117 | with multipliers of at least 1, every line has a positive quantity |
| BomCalculator.CollectAllDistinct | src/utils/bomCalculator.ts:68-114 | all outcomes found, and the parts are pairwise distinct: one line per outcome, in order, with its multiplier |
| BomCalculator.AllMatched | src/utils/bomCalculator.ts:68-114 | all outcomes found: every multiplier is counted |
| BomCalculator.FullMatchLines | src/utils/bomCalculator.ts:68-114 | all roles matched to distinct parts: one line per role, in role order, with the role's part and multiplier |
| BomCalculator.FullMatchTotal | src/utils/bomCalculator.ts:64-117 | all eight roles matched: the total quantity is 46 |
| BomCalculator.CollectMergeLast | src/utils/bomCalculator.ts:53-55 | a last outcome that finds an earlier outcome's part adds its multiplier to that line and appends nothing |
| BomCalculator.SharedPartMerged | src/utils/bomCalculator.ts:104-114 | corner connectors and screws resolving to one part (and the other roles to distinct parts) give seven lines, the seventh with quantity 4 + 24 = 28; the two roles have different categories, so this needs a part number listed twice in the catalog |
| BomCalculator.RoleTableLinesPositive | src/utils/bomCalculator.ts:64-117 | every line of the table's BOM has quantity at least 1 |
| BomCalculator.TopBottomSharedPanel | src/utils/bomCalculator.ts:30-46 | one panel whose part number contains both "TOP" and "BOTTOM" is found by both the top and the bottom query |
| BomCalculator.TopBottomMerged | src/utils/bomCalculator.ts:68-78 | top and bottom panels resolving to one part give a single line with quantity 1 + 1 = 2 |
| BomCalculator.AddRole | src/utils/bomCalculator.ts:69-72 | looking up one role and adding its part when found is one accumulator step on that role's outcome |
| BomCalculator.CalculateBom | src/utils/bomCalculator.ts:64-117 | the result is the fold over the eight role outcomes; its part numbers are distinct and in first-resolution order; it has at most 8 lines; its total is the sum of the multipliers of the matched roles; each line's quantity is the sum of the multipliers of the roles that found that part, and is at least 1 |

## Left out

- The React components, the 3D view and the BOM display (src/components/, src/App.tsx) have no resolution logic and are not part of this model.
- The partial-parameter merge in src/context/ModuleContext.tsx:28-30 is React state wiring and is not modelled.
- Loading the catalog from a JSON file (src/utils/bomCalculator.ts:2): the catalog is a parameter of every lookup.
- The unused `DEPTH` constant (src/utils/bomCalculator.ts:4): no query reads it. The depth constraint is carried on catalog items but never checked, as in the code.
- Sizes are exact real numbers. IEEE-754 rounding and NaN in `Math.abs` and the comparisons are not modelled. NaN and non-positive inputs are rejected by the UI before they reach the engine.
- BomList.Add: BOM lines are values in a sequence field. The code's in-place mutation of a shared line object (`existing.quantity +=`) is modelled as replacing that line. Aliasing of line objects from outside the BOM is not captured.
- Quantities are unbounded integers. The code's floating-point `+=` on quantities is not modelled. The type does not enforce positive quantities; positivity of the computed lines is proved instead (RoleTableLinesPositive).

# Drywall estimation engine

This project models the estimation routine of a drywall (gypsum board) renovation estimator. It is the arithmetic behind the "calculate" button. The routine takes:

- a list of measured rooms, each with a net area and a type (only `ceiling` matters);
- the board length and the stud spacing;
- the structure type (`single`, `double`, `heavy`);
- unit prices, waste percentages, a VAT rate, a profit margin and a labour cost per m².

It produces a bill of materials: total area, gypsum boards, C- and U-profile metres, corner beads, insulation, screws, tape rolls, putty sacks and ceiling hangers. It also produces a priced quote: materials cost, labour, subtotal, profit, VAT and total.

- `estimation.dfy` (module `Estimation`) is the routine itself. It is a pure function, `Estimate`, over exact reals. It returns `Err(NoRooms)` for an empty room list. The folds over the rooms (`TotalArea`, `CeilingRooms`, `HangerSum`) go from the left, like `reduce`. Every material formula is kept exactly as written, including the unsimplified C- and U-profile formulas.
- `properties.dfy` (module `EstimationProperties`) proves what the routine promises:
  - the folds;
  - hanger selectivity;
  - the skeleton factor's reach;
  - the cancellation of the board length in the profile formulas;
  - how the total is assembled;
  - non-negativity;
  - linearity in the areas;
  - worked examples with the application's default settings.

## Model

| member | source | states |
|---|---|---|
| Estimation.Estimate | src/components/ActionsSection.tsx:32-38 | An empty room list is rejected with `NoRooms` and every non-empty list gives a result (both directions); the result's total area is the sum over all rooms |
| Estimation.TotalArea | src/components/ActionsSection.tsx:38 | The left fold of the net areas is non-negative when every area is |
| Estimation.SkeletonFactor | src/components/ActionsSection.tsx:40-42 | The factor lies in [1, 2] and is exactly 1 iff the structure is neither `double` nor `heavy` |
| Estimation.CeilingRooms | src/components/ActionsSection.tsx:52 | The filter never lengthens the list |
| EstimationProperties.TotalAreaAppend | src/components/ActionsSection.tsx:38 | The total area of two concatenated room lists is the sum of their total areas, so every room counts whatever its type |
| EstimationProperties.CeilingRoomsAppend | src/components/ActionsSection.tsx:52 | Filtering ceilings distributes over concatenation |
| EstimationProperties.CeilingRoomsMembers | src/components/ActionsSection.tsx:52 | A room is in the filtered list iff it is in the room list and is a ceiling |
| EstimationProperties.HangerSumIsScaledArea | src/components/ActionsSection.tsx:52 | Summing 0.8 per m² equals 0.8 × the summed area |
| EstimationProperties.CeilingAreaBound | src/components/ActionsSection.tsx:38-52 | With non-negative areas, the ceiling area lies between 0 and the total area |
| EstimationProperties.HangersFromCeilings | src/components/ActionsSection.tsx:52 | Hangers = 0.8 × the ceiling area; with non-negative areas, 0 ≤ hangers ≤ 0.8 × total area |
| EstimationProperties.HangersIgnoreInsertedWall | src/components/ActionsSection.tsx:52 | Inserting a non-ceiling room anywhere in the list leaves the hangers unchanged |
| EstimationProperties.HangersIgnoreChangedWall | src/components/ActionsSection.tsx:52 | Replacing a non-ceiling room by another non-ceiling room (any area) leaves the hangers unchanged |
| EstimationProperties.CProfilesSimplify | src/components/ActionsSection.tsx:45 | For board length > 0, the C-profile formula as written equals totalArea / studSpacing × factor × (1 + cWaste/100) |
| EstimationProperties.UProfilesSimplify | src/components/ActionsSection.tsx:46 | For board length > 0, the U-profile formula as written equals 2 × totalArea × (1 + uWaste/100) |
| EstimationProperties.ProfilesIndependentOfBoardLength | src/components/ActionsSection.tsx:45-46 | In an estimate, C- and U-profiles are the simplified formulas and are unchanged by any other positive board length |
| EstimationProperties.StructureTypeEffect | src/components/ActionsSection.tsx:40-51 | Changing the structure type changes only C-profiles and screws, which become the simplified C-profile formula and 25 × area with the new factor; the other seven quantities are identical |
| EstimationProperties.UnknownStructureIsSingle | src/components/ActionsSection.tsx:40-42 | Any unrecognised structure type gives exactly the `single` estimate |
| EstimationProperties.FactorMonotone | src/components/ActionsSection.tsx:45-49 | For a positive area and waste above -100%, C-profiles and screws grow strictly with the skeleton factor |
| EstimationProperties.SkeletonMonotone | src/components/ActionsSection.tsx:40-49 | For a positive total area, single < double < heavy strictly for both C-profiles and screws |
| EstimationProperties.MarkupChain | src/components/ActionsSection.tsx:67-69 | subtotal + profit + VAT = subtotal × (1 + margin/100) × (1 + VAT rate/100) |
| EstimationProperties.TotalFactorization | src/components/ActionsSection.tsx:65-69 | In an estimate: labour = area × labour cost, subtotal = materials + labour, profit = subtotal × margin/100, VAT = (subtotal + profit) × rate/100, and total = subtotal × (1 + margin/100) × (1 + rate/100) |
| EstimationProperties.ScrewsPricedPerThousand | src/components/ActionsSection.tsx:54-63 | Screws add exactly screws/1000 × price per thousand to the materials cost |
| EstimationProperties.BillOfMaterialsNonnegative | src/components/ActionsSection.tsx:44-52 | With a non-negative area, hanger count and waste, all nine quantities are non-negative |
| EstimationProperties.MaterialsCostBound | src/components/ActionsSection.tsx:54-63 | With non-negative quantities and prices, the materials cost is at least the screws' share, which is non-negative |
| EstimationProperties.QuoteNonnegative | src/components/ActionsSection.tsx:54-69 | With non-negative inputs, labour, profit and VAT are non-negative and total ≥ subtotal ≥ labour |
| EstimationProperties.PricedBillNonnegative | src/components/ActionsSection.tsx:44-69 | The same bounds for the bill of materials of a non-negative area under non-negative settings |
| EstimationProperties.QuantitiesNonnegative | src/components/ActionsSection.tsx:38-52 | With non-negative areas and waste: total area ≥ 0, every quantity ≥ 0, hangers ≤ 0.8 × total area |
| EstimationProperties.Nonnegative | src/components/ActionsSection.tsx:44-69 | With non-negative areas and settings: materials cost ≥ screws' share ≥ 0; labour, profit, VAT ≥ 0; total ≥ subtotal ≥ labour |
| EstimationProperties.TotalAreaScales | src/components/ActionsSection.tsx:38 | Scaling every area by k scales the total area by k |
| EstimationProperties.CeilingRoomsScale | src/components/ActionsSection.tsx:52 | Scaling areas commutes with the ceiling filter |
| EstimationProperties.HangerSumScales | src/components/ActionsSection.tsx:52 | Scaling areas by k scales the hanger sum by k |
| EstimationProperties.HangersScale | src/components/ActionsSection.tsx:52 | Scaling every area by k scales the hangers by k |
| EstimationProperties.GypsumBoardsScale | src/components/ActionsSection.tsx:44 | The board count is linear in the area |
| EstimationProperties.CProfilesScale | src/components/ActionsSection.tsx:45 | The C-profile length is linear in the area |
| EstimationProperties.UProfilesScale | src/components/ActionsSection.tsx:46 | The U-profile length is linear in the area |
| EstimationProperties.AreaFormulasScale | src/components/ActionsSection.tsx:47-51 | Corner beads, insulation, screws, tape and putty are linear in the area |
| EstimationProperties.BillOfMaterialsScales | src/components/ActionsSection.tsx:44-52 | Scaling area and hangers by k scales all nine quantities by k |
| EstimationProperties.MaterialsCostScales | src/components/ActionsSection.tsx:54-63 | Scaling all quantities by k scales the materials cost by k |
| EstimationProperties.CostsScale | src/components/ActionsSection.tsx:65-69 | Scaling area and materials cost by k scales labour, subtotal, profit, VAT and total by k |
| EstimationProperties.QuoteScales | src/components/ActionsSection.tsx:54-69 | Scaling area and quantities by k scales every field of the quote by k |
| EstimationProperties.EstimateScales | src/components/ActionsSection.tsx:38-69 | For any k, scaling every room's area by k scales the total area, the nine quantities and the six cost figures by k |
| EstimationProperties.ZeroAreas | src/components/ActionsSection.tsx:38-69 | Rooms that all have zero area give an all-zero bill and quote |
| EstimationProperties.SingleCeilingFolds | src/components/ActionsSection.tsx:38-52 | One 100 m² ceiling: total area 100, hangers 80 |
| EstimationProperties.DefaultCeilingExample | src/App.tsx:15-38 | With the default settings, one 100 m² ceiling gives 175/6 boards, 175 m C, 210 m U, 84 m corner bead, 105 m² insulation, 2500 screws, 4/3 tape rolls, 1.25 putty sacks, 80 hangers, and a total of 14141611/3000 (≈ 4713.87) |
| EstimationProperties.NoWasteCeilingExample | src/App.tsx:15-38 | The same ceiling with all waste set to 0 gives a total of 20726321/4500 (≈ 4605.85) |

## Left out

- Result text: the formatting with `toFixed` and the Greek labels (src/components/ActionsSection.tsx:71-90). This is presentation only; the model keeps exact values.
- The pie chart and its `chartInstance` state (src/components/ActionsSection.tsx:30, 91-113). These are a foreign charting library drawing on a DOM canvas.
- TXT, CSV and PDF export and printing (src/components/ActionsSection.tsx:115-144). These are browser and file I/O.
- `clearAll` (a page reload) and the `alert` call. They are browser side effects. The alert is modelled only as the `Err(NoRooms)` result.
- src/App.tsx: the React state wiring, the dark-mode toggle with `localStorage`, and the layout. Only its default values are used, in `DefaultSettings`.
- Floating point: all values are exact reals, so IEEE-754 rounding is not reproduced. In particular, the unsimplified profile formulas can differ from their simplified forms in the last bits.
- Division by zero: board length and stud spacing are required to be positive (`ValidDimensions`). The routine does not check them; with zero it would produce `Infinity` or `NaN`, which the model does not represent.
- Untyped inputs: rooms, prices and waste are untyped records, and their fields are taken to be numbers. String concatenation in the fold and missing fields (`undefined`, `NaN`) are not modelled. A room type other than `'ceiling'` is `Wall` or `Other`, and a structure string other than `single`, `double` or `heavy` is `Unknown`.


/**
 * Drywall estimation engine: from a list of measured rooms and the
 * material, waste and economic settings, computes a bill of materials
 * (boards, C/U profiles, corner beads, insulation, screws, tape, putty,
 * ceiling hangers) and a priced quote (materials, labour, profit, VAT).
 *
 * All quantities are exact reals; no rounding is applied.
 */
module Estimation {

  /** A room's type; only ceilings are singled out by the engine. */
  datatype Kind = Ceiling | Wall | Other

  /** One measured surface with its usable (net) area in m². */
  datatype Room = Room(netArea: real, kind: Kind)

  /** Frame density; `Unknown` stands for any other string value. */
  datatype StructureType = Single | Double | Heavy | Unknown

  /** Unit prices; `screws` is the price per 1000 screws. */
  datatype Prices = Prices(
    gypsum: real, c: real, u: real, corner: real, insulation: real,
    screws: real, tape: real, putty: real, hanger: real)

  /** Waste percentages, each applied as a factor (1 + pct/100). */
  datatype Waste = Waste(
    gypsumWaste: real, cWaste: real, uWaste: real, cornerWaste: real, insulationWaste: real)

  /** Everything besides the rooms that the estimate depends on. */
  datatype Settings = Settings(
    boardLength: real, studSpacing: real, structure: StructureType,
    prices: Prices, waste: Waste,
    vatRate: real, profitMargin: real, labourCost: real)

  /** The nine material quantities of the bill. */
  datatype Quantities = Quantities(
    gypsumBoards: real, cProfiles: real, uProfiles: real, cornerBeads: real,
    insulation: real, screws: real, tapeRolls: real, puttySacks: real, hangers: real)

  /** The engine's output: total area, bill of materials and cost breakdown. */
  datatype Breakdown = Breakdown(
    totalArea: real, quantities: Quantities,
    materialsCost: real, labour: real, subtotal: real,
    profit: real, vat: real, total: real)

  /** The single error the engine reports: nothing to estimate. */
  datatype Error = NoRooms

  datatype Result<T> = Ok(value: T) | Err(error: Error)

  /** Every room has a non-negative net area. */
  predicate NonnegativeAreas(rooms: seq<Room>) {
    forall i :: 0 <= i < |rooms| ==> rooms[i].netArea >= 0.0
  }

  /** The dimensions the engine divides by are non-zero (positive). */
  predicate ValidDimensions(s: Settings) {
    s.boardLength > 0.0 && s.studSpacing > 0.0
  }

  /** Sum of the net areas, folded from the left as `reduce` does. */
  function TotalArea(rooms: seq<Room>): (r: real)
    ensures NonnegativeAreas(rooms) ==> r >= 0.0
  {
    if rooms == [] then 0.0
    else TotalArea(rooms[..|rooms| - 1]) + rooms[|rooms| - 1].netArea
  }

  /** The ceiling rooms, in their original order (the `filter` step). */
  function CeilingRooms(rooms: seq<Room>): (c: seq<Room>)
    ensures |c| <= |rooms|
  {
    if rooms == [] then []
    else
      var init := CeilingRooms(rooms[..|rooms| - 1]);
      var last := rooms[|rooms| - 1];
      if last.kind == Ceiling then init + [last] else init
  }

  /** Sum of 0.8 hangers per m² over the given rooms, folded from the left. */
  function HangerSum(rooms: seq<Room>): real {
    if rooms == [] then 0.0
    else HangerSum(rooms[..|rooms| - 1]) + rooms[|rooms| - 1].netArea * 0.8
  }

  /** Ceiling hangers: 0.8 per m² of ceiling, walls contribute nothing. */
  function Hangers(rooms: seq<Room>): real {
    HangerSum(CeilingRooms(rooms))
  }

  /** Frame multiplier for C-profiles and screws. */
  function SkeletonFactor(t: StructureType): (f: real)
    ensures 1.0 <= f <= 2.0
    ensures f == 1.0 <==> t != Double && t != Heavy
  {
    match t
    case Double => 1.5
    case Heavy => 2.0
    case _ => 1.0
  }

  /** Purchased quantity is the theoretical need inflated by the waste percentage. */
  function WasteFactor(pct: real): real {
    1.0 + pct / 100.0
  }

  // The material formulas, each kept in its original (unsimplified) form.

  /** Boards: one board covers 1.2 m × its length. */
  function GypsumBoards(totalArea: real, boardLength: real, gypsumWaste: real): real
    requires boardLength > 0.0
  {
    (totalArea / (1.2 * boardLength)) * WasteFactor(gypsumWaste)
  }

  /** C-profile metres; the board length cancels out (see ProfilesSimplify). */
  function CProfiles(totalArea: real, boardLength: real, studSpacing: real, factor: real, cWaste: real): real
    requires boardLength > 0.0 && studSpacing > 0.0
  {
    (totalArea / boardLength) * (1.0 / studSpacing) * boardLength * factor * WasteFactor(cWaste)
  }

  /** U-profile metres; the board length cancels out (see ProfilesSimplify). */
  function UProfiles(totalArea: real, boardLength: real, uWaste: real): real
    requires boardLength > 0.0
  {
    (totalArea / boardLength) * 2.0 * boardLength * WasteFactor(uWaste)
  }

  function CornerBeads(totalArea: real, cornerWaste: real): real {
    totalArea * 0.8 * WasteFactor(cornerWaste)
  }

  function Insulation(totalArea: real, insulationWaste: real): real {
    totalArea * WasteFactor(insulationWaste)
  }

  /** Screws: 25 per m², times the skeleton factor, no waste allowance. */
  function Screws(totalArea: real, factor: real): real {
    totalArea * 25.0 * factor
  }

  /** Tape rolls of 90 m, 1.2 m of tape per m². */
  function TapeRolls(totalArea: real): real {
    (totalArea * 1.2) / 90.0
  }

  /** Putty sacks of 28 kg, 0.35 kg per m². */
  function PuttySacks(totalArea: real): real {
    (totalArea * 0.35) / 28.0
  }

  /** The bill of materials for a total area and a hanger count. */
  function BillOfMaterials(totalArea: real, hangers: real, s: Settings): Quantities
    requires ValidDimensions(s)
  {
    var factor := SkeletonFactor(s.structure);
    var w := s.waste;
    Quantities(
      gypsumBoards := GypsumBoards(totalArea, s.boardLength, w.gypsumWaste),
      cProfiles := CProfiles(totalArea, s.boardLength, s.studSpacing, factor, w.cWaste),
      uProfiles := UProfiles(totalArea, s.boardLength, w.uWaste),
      cornerBeads := CornerBeads(totalArea, w.cornerWaste),
      insulation := Insulation(totalArea, w.insulationWaste),
      screws := Screws(totalArea, factor),
      tapeRolls := TapeRolls(totalArea),
      puttySacks := PuttySacks(totalArea),
      hangers := hangers)
  }

  /** Each quantity times its unit price; screws are priced per thousand. */
  function MaterialsCost(q: Quantities, p: Prices): real {
    q.gypsumBoards * p.gypsum
    + q.cProfiles * p.c
    + q.uProfiles * p.u
    + q.cornerBeads * p.corner
    + q.insulation * p.insulation
    + (q.screws / 1000.0) * p.screws
    + q.tapeRolls * p.tape
    + q.puttySacks * p.putty
    + q.hangers * p.hanger
  }

  /** Labour is charged per m² of total area. */
  function Labour(totalArea: real, labourCost: real): real {
    totalArea * labourCost
  }

  /** Profit is the margin percentage of the subtotal. */
  function Profit(subtotal: real, profitMargin: real): real {
    subtotal * (profitMargin / 100.0)
  }

  /** VAT is charged on the subtotal plus profit. */
  function Vat(subtotal: real, profit: real, vatRate: real): real {
    (subtotal + profit) * (vatRate / 100.0)
  }

  /** Prices a bill of materials for `totalArea` m²: labour, profit, VAT, total. */
  function Quote(totalArea: real, q: Quantities, prices: Prices, vatRate: real, profitMargin: real, labourCost: real): Breakdown {
    var materialsCost := MaterialsCost(q, prices);
    var labour := Labour(totalArea, labourCost);
    var subtotal := materialsCost + labour;
    var profit := Profit(subtotal, profitMargin);
    var vat := Vat(subtotal, profit, vatRate);
    Breakdown(totalArea, q, materialsCost, labour, subtotal, profit, vat, subtotal + profit + vat)
  }

  /**
   * The estimate. An empty room list is rejected before anything is
   * computed; otherwise the total area is the sum over every room, the
   * hangers come from the ceiling rooms alone, and the total is the
   * subtotal marked up by the profit margin and then by VAT.
   */
  function Estimate(rooms: seq<Room>, s: Settings): (r: Result<Breakdown>)
    requires ValidDimensions(s)
    ensures r.Err? <==> rooms == []
    ensures r.Err? ==> r.error == NoRooms
    ensures r.Ok? ==> r.value.totalArea == TotalArea(rooms)
  {
    if rooms == [] then Err(NoRooms)
    else
      var totalArea := TotalArea(rooms);
      var q := BillOfMaterials(totalArea, Hangers(rooms), s);
      Ok(Quote(totalArea, q, s.prices, s.vatRate, s.profitMargin, s.labourCost))
  }
}

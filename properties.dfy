/**
 * Properties of the drywall estimation engine: how the room folds behave,
 * which quantities the structure type and the board length affect, how
 * the total is assembled, non-negativity, and linearity in the areas.
 */
module EstimationProperties {
  import opened Estimation

  // ---------------------------------------------------------------------
  // Folds over the room list

  lemma {:induction false} TotalAreaAppend(a: seq<Room>, b: seq<Room>)
    ensures TotalArea(a + b) == TotalArea(a) + TotalArea(b)
  {
    if b != [] {
      assert (a + b)[..|a + b| - 1] == a + b[..|b| - 1];
      TotalAreaAppend(a, b[..|b| - 1]);
    } else {
      assert a + b == a;
    }
  }

  lemma {:induction false} CeilingRoomsAppend(a: seq<Room>, b: seq<Room>)
    ensures CeilingRooms(a + b) == CeilingRooms(a) + CeilingRooms(b)
  {
    if b != [] {
      assert (a + b)[..|a + b| - 1] == a + b[..|b| - 1];
      CeilingRoomsAppend(a, b[..|b| - 1]);
    } else {
      assert a + b == a;
    }
  }

  /** The filter keeps exactly the ceiling rooms. */
  lemma {:induction false} CeilingRoomsMembers(rooms: seq<Room>)
    ensures forall x :: x in CeilingRooms(rooms) <==> x in rooms && x.kind == Ceiling
  {
    if rooms != [] {
      var init, last := rooms[..|rooms| - 1], rooms[|rooms| - 1];
      CeilingRoomsMembers(init);
      assert rooms == init + [last];
    }
  }

  lemma {:induction false} HangerSumIsScaledArea(rooms: seq<Room>)
    ensures HangerSum(rooms) == 0.8 * TotalArea(rooms)
  {
    if rooms != [] {
      HangerSumIsScaledArea(rooms[..|rooms| - 1]);
    }
  }

  /** Ceiling rooms never cover more than all rooms together. */
  lemma {:induction false} CeilingAreaBound(rooms: seq<Room>)
    requires NonnegativeAreas(rooms)
    ensures 0.0 <= TotalArea(CeilingRooms(rooms)) <= TotalArea(rooms)
  {
    if rooms != [] {
      var init := rooms[..|rooms| - 1];
      var last := rooms[|rooms| - 1];
      assert NonnegativeAreas(init);
      CeilingAreaBound(init);
      if last.kind == Ceiling {
        TotalAreaAppend(CeilingRooms(init), [last]);
        assert TotalArea([last]) == last.netArea by {
          assert [last][..0] == [];
        }
      }
    }
  }

  // ---------------------------------------------------------------------
  // Hangers

  /** Hangers are 0.8 per m² of ceiling area, bounded by 0.8 × total area. */
  lemma HangersFromCeilings(rooms: seq<Room>)
    ensures Hangers(rooms) == 0.8 * TotalArea(CeilingRooms(rooms))
    ensures NonnegativeAreas(rooms) ==> 0.0 <= Hangers(rooms) <= 0.8 * TotalArea(rooms)
  {
    HangerSumIsScaledArea(CeilingRooms(rooms));
    if NonnegativeAreas(rooms) {
      CeilingAreaBound(rooms);
    }
  }

  /** Inserting a wall (or any non-ceiling room) anywhere leaves hangers unchanged. */
  lemma HangersIgnoreInsertedWall(a: seq<Room>, x: Room, b: seq<Room>)
    requires x.kind != Ceiling
    ensures Hangers(a + [x] + b) == Hangers(a + b)
  {
    CeilingRoomsAppend(a + [x], b);
    CeilingRoomsAppend(a, [x]);
    CeilingRoomsAppend(a, b);
    assert CeilingRooms([x]) == [] by {
      assert [x][..0] == [];
    }
    assert CeilingRooms(a) + [] == CeilingRooms(a);
  }

  /** Replacing one non-ceiling room by another leaves hangers unchanged. */
  lemma HangersIgnoreChangedWall(rooms: seq<Room>, i: nat, x: Room)
    requires i < |rooms|
    requires rooms[i].kind != Ceiling && x.kind != Ceiling
    ensures Hangers(rooms[i := x]) == Hangers(rooms)
  {
    var a, b := rooms[..i], rooms[i + 1..];
    assert rooms == a + [rooms[i]] + b;
    assert rooms[i := x] == a + [x] + b;
    HangersIgnoreInsertedWall(a, rooms[i], b);
    HangersIgnoreInsertedWall(a, x, b);
  }

  // ---------------------------------------------------------------------
  // Skeleton factor and profiles

  /** C-profile metres with the board length cancelled out. */
  function SimplifiedCProfiles(totalArea: real, studSpacing: real, factor: real, cWaste: real): real
    requires studSpacing > 0.0
  {
    totalArea / studSpacing * factor * WasteFactor(cWaste)
  }

  /** U-profile metres with the board length cancelled out. */
  function SimplifiedUProfiles(totalArea: real, uWaste: real): real {
    2.0 * totalArea * WasteFactor(uWaste)
  }

  /** The C-profile formula as written equals its simplified form. */
  lemma CProfilesSimplify(a: real, l: real, sp: real, f: real, cWaste: real)
    requires l > 0.0 && sp > 0.0
    ensures CProfiles(a, l, sp, f, cWaste) == SimplifiedCProfiles(a, sp, f, cWaste)
  {
    assert (a / l) * l == a;
    assert (a / l) * (1.0 / sp) * l == a / sp;
  }

  /** The U-profile formula as written equals its simplified form. */
  lemma UProfilesSimplify(a: real, l: real, uWaste: real)
    requires l > 0.0
    ensures UProfiles(a, l, uWaste) == SimplifiedUProfiles(a, uWaste)
  {
    assert (a / l) * l == a;
    assert (a / l) * 2.0 * l == 2.0 * a;
  }

  /**
   * In an estimate, C- and U-profiles are given by the simplified
   * formulas, and so do not depend on the board length.
   */
  lemma ProfilesIndependentOfBoardLength(rooms: seq<Room>, s: Settings, boardLength: real)
    requires ValidDimensions(s) && rooms != [] && boardLength > 0.0
    ensures var q := Estimate(rooms, s).value.quantities;
      var a := TotalArea(rooms);
      && q.cProfiles == SimplifiedCProfiles(a, s.studSpacing, SkeletonFactor(s.structure), s.waste.cWaste)
      && q.uProfiles == SimplifiedUProfiles(a, s.waste.uWaste)
    ensures var q := Estimate(rooms, s).value.quantities;
      var q' := Estimate(rooms, s.(boardLength := boardLength)).value.quantities;
      q'.cProfiles == q.cProfiles && q'.uProfiles == q.uProfiles
  {
    var a, f, w := TotalArea(rooms), SkeletonFactor(s.structure), s.waste;
    CProfilesSimplify(a, s.boardLength, s.studSpacing, f, w.cWaste);
    CProfilesSimplify(a, boardLength, s.studSpacing, f, w.cWaste);
    UProfilesSimplify(a, s.boardLength, w.uWaste);
    UProfilesSimplify(a, boardLength, w.uWaste);
  }

  /**
   * Changing the structure type only swaps the skeleton factor in the
   * C-profile and screw formulas; every other quantity stays the same.
   */
  lemma StructureTypeEffect(rooms: seq<Room>, s: Settings, t: StructureType)
    requires ValidDimensions(s) && rooms != []
    ensures var q := Estimate(rooms, s).value.quantities;
      var q' := Estimate(rooms, s.(structure := t)).value.quantities;
      var a := TotalArea(rooms);
      && q' == q.(cProfiles := q'.cProfiles, screws := q'.screws)
      && q'.cProfiles == SimplifiedCProfiles(a, s.studSpacing, SkeletonFactor(t), s.waste.cWaste)
      && q'.screws == Screws(a, SkeletonFactor(t))
  {
    CProfilesSimplify(TotalArea(rooms), s.boardLength, s.studSpacing, SkeletonFactor(t), s.waste.cWaste);
  }

  /** An unrecognised structure type is estimated exactly like a single one. */
  lemma UnknownStructureIsSingle(rooms: seq<Room>, s: Settings)
    requires ValidDimensions(s)
    ensures Estimate(rooms, s.(structure := Unknown)) == Estimate(rooms, s.(structure := Single))
  {
  }

  /** For a positive area, C-profiles and screws grow strictly with the skeleton factor. */
  lemma FactorMonotone(a: real, sp: real, cWaste: real, f: real, f': real)
    requires a > 0.0 && sp > 0.0 && cWaste > -100.0 && f < f'
    ensures SimplifiedCProfiles(a, sp, f, cWaste) < SimplifiedCProfiles(a, sp, f', cWaste)
    ensures Screws(a, f) < Screws(a, f')
  {
    var base := a / sp * WasteFactor(cWaste);
    assert base > 0.0;
    assert base * f < base * f';
    assert a / sp * f * WasteFactor(cWaste) == base * f;
    assert a / sp * f' * WasteFactor(cWaste) == base * f';
    assert a * 25.0 > 0.0;
  }

  /** single < double < heavy strictly for C-profiles and screws, given some area. */
  lemma SkeletonMonotone(rooms: seq<Room>, s: Settings)
    requires ValidDimensions(s) && rooms != []
    requires TotalArea(rooms) > 0.0 && s.waste.cWaste > -100.0
    ensures var single := Estimate(rooms, s.(structure := Single)).value.quantities;
      var double := Estimate(rooms, s.(structure := Double)).value.quantities;
      var heavy := Estimate(rooms, s.(structure := Heavy)).value.quantities;
      && single.cProfiles < double.cProfiles < heavy.cProfiles
      && single.screws < double.screws < heavy.screws
  {
    var a, l, sp, w := TotalArea(rooms), s.boardLength, s.studSpacing, s.waste.cWaste;
    CProfilesSimplify(a, l, sp, 1.0, w);
    CProfilesSimplify(a, l, sp, 1.5, w);
    CProfilesSimplify(a, l, sp, 2.0, w);
    FactorMonotone(a, sp, w, 1.0, 1.5);
    FactorMonotone(a, sp, w, 1.5, 2.0);
  }

  // ---------------------------------------------------------------------
  // How the total is assembled

  /** The subtotal marked up by the profit margin and then by VAT. */
  function MarkedUp(subtotal: real, profitMargin: real, vatRate: real): real {
    subtotal * (1.0 + profitMargin / 100.0) * (1.0 + vatRate / 100.0)
  }

  lemma MarkupChain(subtotal: real, profit: real, vat: real, profitMargin: real, vatRate: real)
    requires profit == Profit(subtotal, profitMargin)
    requires vat == Vat(subtotal, profit, vatRate)
    ensures subtotal + profit + vat == MarkedUp(subtotal, profitMargin, vatRate)
  {
    assert subtotal + profit == subtotal * (1.0 + profitMargin / 100.0);
  }

  /**
   * The subtotal is materials plus labour (area × labour cost), and the
   * total is the subtotal marked up by the profit margin and then by VAT
   * (VAT is charged on the profit too).
   */
  lemma TotalFactorization(rooms: seq<Room>, s: Settings)
    requires ValidDimensions(s) && rooms != []
    ensures var b := Estimate(rooms, s).value;
      && b.labour == Labour(b.totalArea, s.labourCost)
      && b.subtotal == b.materialsCost + b.labour
      && b.profit == Profit(b.subtotal, s.profitMargin)
      && b.vat == Vat(b.subtotal, b.profit, s.vatRate)
      && b.total == MarkedUp(b.subtotal, s.profitMargin, s.vatRate)
  {
    var b := Estimate(rooms, s).value;
    MarkupChain(b.subtotal, b.profit, b.vat, s.profitMargin, s.vatRate);
  }

  /** The screws' share of the materials cost: the count in thousands times the price per thousand. */
  function ScrewsShare(q: Quantities, p: Prices): real {
    q.screws / 1000.0 * p.screws
  }

  /** Screws are priced per thousand: that is their whole share of the materials cost. */
  lemma ScrewsPricedPerThousand(q: Quantities, p: Prices)
    ensures MaterialsCost(q, p) == MaterialsCost(q, p.(screws := 0.0)) + ScrewsShare(q, p)
  {
  }

  // ---------------------------------------------------------------------
  // Non-negativity

  predicate NonnegativePrices(p: Prices) {
    && p.gypsum >= 0.0 && p.c >= 0.0 && p.u >= 0.0 && p.corner >= 0.0 && p.insulation >= 0.0
    && p.screws >= 0.0 && p.tape >= 0.0 && p.putty >= 0.0 && p.hanger >= 0.0
  }

  predicate NonnegativeWaste(w: Waste) {
    && w.gypsumWaste >= 0.0 && w.cWaste >= 0.0 && w.uWaste >= 0.0
    && w.cornerWaste >= 0.0 && w.insulationWaste >= 0.0
  }

  predicate NonnegativeSettings(s: Settings) {
    && NonnegativePrices(s.prices) && NonnegativeWaste(s.waste)
    && s.vatRate >= 0.0 && s.profitMargin >= 0.0 && s.labourCost >= 0.0
  }

  predicate NonnegativeQuantities(q: Quantities) {
    && q.gypsumBoards >= 0.0 && q.cProfiles >= 0.0 && q.uProfiles >= 0.0
    && q.cornerBeads >= 0.0 && q.insulation >= 0.0 && q.screws >= 0.0
    && q.tapeRolls >= 0.0 && q.puttySacks >= 0.0 && q.hangers >= 0.0
  }

  lemma BillOfMaterialsNonnegative(a: real, h: real, s: Settings)
    requires ValidDimensions(s) && NonnegativeWaste(s.waste) && a >= 0.0 && h >= 0.0
    ensures NonnegativeQuantities(BillOfMaterials(a, h, s))
  {
    var l, sp, w, f := s.boardLength, s.studSpacing, s.waste, SkeletonFactor(s.structure);
    assert a / (1.2 * l) >= 0.0;
    CProfilesSimplify(a, l, sp, f, w.cWaste);
    assert a / sp >= 0.0;
    UProfilesSimplify(a, l, w.uWaste);
  }

  lemma MaterialsCostBound(q: Quantities, p: Prices)
    requires NonnegativeQuantities(q) && NonnegativePrices(p)
    ensures MaterialsCost(q, p) >= ScrewsShare(q, p) >= 0.0
  {
  }

  lemma QuoteNonnegative(a: real, q: Quantities, p: Prices, v: real, m: real, lc: real)
    requires a >= 0.0 && NonnegativeQuantities(q) && NonnegativePrices(p)
    requires lc >= 0.0 && m >= 0.0 && v >= 0.0
    ensures var b := Quote(a, q, p, v, m, lc);
      && b.materialsCost >= ScrewsShare(q, p) >= 0.0
      && b.labour >= 0.0 && b.profit >= 0.0 && b.vat >= 0.0
      && b.total >= b.subtotal >= b.labour
  {
    MaterialsCostBound(q, p);
  }

  lemma PricedBillNonnegative(a: real, h: real, s: Settings)
    requires ValidDimensions(s) && NonnegativeSettings(s) && a >= 0.0 && h >= 0.0
    ensures var q := BillOfMaterials(a, h, s);
      var b := Quote(a, q, s.prices, s.vatRate, s.profitMargin, s.labourCost);
      && b.materialsCost >= ScrewsShare(q, s.prices) >= 0.0
      && b.labour >= 0.0 && b.profit >= 0.0 && b.vat >= 0.0
      && b.total >= b.subtotal >= b.labour
  {
    var q := BillOfMaterials(a, h, s);
    BillOfMaterialsNonnegative(a, h, s);
    QuoteNonnegative(a, q, s.prices, s.vatRate, s.profitMargin, s.labourCost);
  }

  /**
   * With non-negative areas and waste, every quantity is non-negative and
   * hangers are at most 0.8 × the total area.
   */
  lemma QuantitiesNonnegative(rooms: seq<Room>, s: Settings)
    requires ValidDimensions(s) && rooms != []
    requires NonnegativeAreas(rooms) && NonnegativeWaste(s.waste)
    ensures var b := Estimate(rooms, s).value;
      && b.totalArea >= 0.0
      && NonnegativeQuantities(b.quantities)
      && b.quantities.hangers <= 0.8 * b.totalArea
  {
    HangersFromCeilings(rooms);
    BillOfMaterialsNonnegative(TotalArea(rooms), Hangers(rooms), s);
  }

  /**
   * With non-negative areas, prices, waste, rates and labour cost, every
   * cost component is non-negative, the screws' share (priced per
   * thousand) is part of the materials cost, and total ≥ subtotal ≥ labour.
   */
  lemma Nonnegative(rooms: seq<Room>, s: Settings)
    requires ValidDimensions(s) && rooms != []
    requires NonnegativeAreas(rooms) && NonnegativeSettings(s)
    ensures var b := Estimate(rooms, s).value;
      && b.materialsCost >= ScrewsShare(b.quantities, s.prices) >= 0.0
      && b.labour >= 0.0 && b.profit >= 0.0 && b.vat >= 0.0
      && b.total >= b.subtotal >= b.labour
  {
    HangersFromCeilings(rooms);
    PricedBillNonnegative(TotalArea(rooms), Hangers(rooms), s);
  }

  // ---------------------------------------------------------------------
  // Linearity in the areas

  function Scaled(x: real, k: real): real {
    x * k
  }

  function ScaleRoom(r: Room, k: real): Room {
    r.(netArea := Scaled(r.netArea, k))
  }

  function ScaleAreas(rooms: seq<Room>, k: real): (r: seq<Room>)
    ensures |r| == |rooms|
    ensures forall i :: 0 <= i < |rooms| ==> r[i] == ScaleRoom(rooms[i], k)
  {
    seq(|rooms|, i requires 0 <= i < |rooms| => ScaleRoom(rooms[i], k))
  }

  function ScaleQuantities(q: Quantities, k: real): Quantities {
    Quantities(
      Scaled(q.gypsumBoards, k), Scaled(q.cProfiles, k), Scaled(q.uProfiles, k),
      Scaled(q.cornerBeads, k), Scaled(q.insulation, k), Scaled(q.screws, k),
      Scaled(q.tapeRolls, k), Scaled(q.puttySacks, k), Scaled(q.hangers, k))
  }

  function ScaleBreakdown(b: Breakdown, k: real): Breakdown {
    Breakdown(
      Scaled(b.totalArea, k), ScaleQuantities(b.quantities, k),
      Scaled(b.materialsCost, k), Scaled(b.labour, k), Scaled(b.subtotal, k),
      Scaled(b.profit, k), Scaled(b.vat, k), Scaled(b.total, k))
  }

  lemma {:induction false} TotalAreaScales(rooms: seq<Room>, k: real)
    ensures TotalArea(ScaleAreas(rooms, k)) == Scaled(TotalArea(rooms), k)
  {
    if rooms != [] {
      var n, scaled := |rooms|, ScaleAreas(rooms, k);
      var init, last := rooms[..n - 1], rooms[n - 1];
      assert scaled[..n - 1] == ScaleAreas(init, k);
      TotalAreaScales(init, k);
      assert TotalArea(scaled) == Scaled(TotalArea(init), k) + Scaled(last.netArea, k);
      ScaledAdd(TotalArea(init), last.netArea, k);
    }
  }

  lemma ScaledAdd(x: real, y: real, k: real)
    ensures Scaled(x + y, k) == Scaled(x, k) + Scaled(y, k)
  {
  }

  lemma {:induction false} CeilingRoomsScale(rooms: seq<Room>, k: real)
    ensures CeilingRooms(ScaleAreas(rooms, k)) == ScaleAreas(CeilingRooms(rooms), k)
  {
    if rooms != [] {
      var n := |rooms|;
      var init := rooms[..n - 1];
      assert ScaleAreas(rooms, k)[..n - 1] == ScaleAreas(init, k);
      CeilingRoomsScale(init, k);
      var c := CeilingRooms(init);
      assert ScaleAreas(c + [rooms[n - 1]], k) == ScaleAreas(c, k) + [ScaleRoom(rooms[n - 1], k)];
    }
  }

  lemma {:induction false} HangerSumScales(rooms: seq<Room>, k: real)
    ensures HangerSum(ScaleAreas(rooms, k)) == Scaled(HangerSum(rooms), k)
  {
    if rooms != [] {
      var n, scaled := |rooms|, ScaleAreas(rooms, k);
      var init, last := rooms[..n - 1], rooms[n - 1];
      assert scaled[..n - 1] == ScaleAreas(init, k);
      HangerSumScales(init, k);
      ScaledConstant(last.netArea * 0.8, last.netArea, 0.8, k);
      assert HangerSum(scaled) == Scaled(HangerSum(init), k) + Scaled(last.netArea * 0.8, k);
      ScaledAdd(HangerSum(init), last.netArea * 0.8, k);
    }
  }

  lemma HangersScale(rooms: seq<Room>, k: real)
    ensures Hangers(ScaleAreas(rooms, k)) == Scaled(Hangers(rooms), k)
  {
    CeilingRoomsScale(rooms, k);
    HangerSumScales(CeilingRooms(rooms), k);
  }

  lemma ScaledConstant(y: real, x: real, c: real, k: real)
    requires y == x * c
    ensures Scaled(y, k) == Scaled(x, k) * c
  {
  }

  lemma GypsumBoardsScale(a: real, l: real, g: real, k: real)
    requires l > 0.0
    ensures GypsumBoards(Scaled(a, k), l, g) == Scaled(GypsumBoards(a, l, g), k)
  {
    assert (a * k) / (1.2 * l) == (a / (1.2 * l)) * k;
  }

  lemma CProfilesScale(a: real, l: real, sp: real, f: real, w: real, k: real)
    requires l > 0.0 && sp > 0.0
    ensures CProfiles(Scaled(a, k), l, sp, f, w) == Scaled(CProfiles(a, l, sp, f, w), k)
  {
    CProfilesSimplify(a, l, sp, f, w);
    CProfilesSimplify(a * k, l, sp, f, w);
    assert (a * k) / sp == (a / sp) * k;
  }

  lemma UProfilesScale(a: real, l: real, w: real, k: real)
    requires l > 0.0
    ensures UProfiles(Scaled(a, k), l, w) == Scaled(UProfiles(a, l, w), k)
  {
    UProfilesSimplify(a, l, w);
    UProfilesSimplify(a * k, l, w);
  }

  lemma AreaFormulasScale(a: real, f: real, cornerWaste: real, insulationWaste: real, k: real)
    ensures var a' := Scaled(a, k);
      && CornerBeads(a', cornerWaste) == Scaled(CornerBeads(a, cornerWaste), k)
      && Insulation(a', insulationWaste) == Scaled(Insulation(a, insulationWaste), k)
      && Screws(a', f) == Scaled(Screws(a, f), k)
      && TapeRolls(a') == Scaled(TapeRolls(a), k)
      && PuttySacks(a') == Scaled(PuttySacks(a), k)
  {
  }

  lemma BillOfMaterialsScales(a: real, h: real, s: Settings, k: real)
    requires ValidDimensions(s)
    ensures BillOfMaterials(Scaled(a, k), Scaled(h, k), s) == ScaleQuantities(BillOfMaterials(a, h, s), k)
  {
    var l, sp, f, w := s.boardLength, s.studSpacing, SkeletonFactor(s.structure), s.waste;
    GypsumBoardsScale(a, l, w.gypsumWaste, k);
    CProfilesScale(a, l, sp, f, w.cWaste, k);
    UProfilesScale(a, l, w.uWaste, k);
    AreaFormulasScale(a, f, w.cornerWaste, w.insulationWaste, k);
  }

  lemma MaterialsCostScales(q: Quantities, p: Prices, k: real)
    ensures MaterialsCost(ScaleQuantities(q, k), p) == Scaled(MaterialsCost(q, p), k)
  {
  }

  lemma CostsScale(a: real, materialsCost: real, lc: real, m: real, v: real, k: real)
    ensures var subtotal := materialsCost + Labour(a, lc);
      var profit := Profit(subtotal, m);
      var subtotal' := Scaled(materialsCost, k) + Labour(Scaled(a, k), lc);
      var profit' := Profit(subtotal', m);
      && Labour(Scaled(a, k), lc) == Scaled(Labour(a, lc), k)
      && subtotal' == Scaled(subtotal, k)
      && profit' == Scaled(profit, k)
      && Vat(subtotal', profit', v) == Scaled(Vat(subtotal, profit, v), k)
      && subtotal' + profit' + Vat(subtotal', profit', v) == Scaled(subtotal + profit + Vat(subtotal, profit, v), k)
  {
  }

  lemma QuoteScales(a: real, q: Quantities, p: Prices, v: real, m: real, lc: real, k: real)
    ensures Quote(Scaled(a, k), ScaleQuantities(q, k), p, v, m, lc) == ScaleBreakdown(Quote(a, q, p, v, m, lc), k)
  {
    MaterialsCostScales(q, p, k);
    CostsScale(a, MaterialsCost(q, p), lc, m, v, k);
  }

  /**
   * Scaling every room's net area by k scales the total area, all nine
   * quantities and every cost component by k.
   */
  lemma EstimateScales(rooms: seq<Room>, s: Settings, k: real)
    requires ValidDimensions(s) && rooms != []
    ensures Estimate(ScaleAreas(rooms, k), s) == Ok(ScaleBreakdown(Estimate(rooms, s).value, k))
  {
    var a, h := TotalArea(rooms), Hangers(rooms);
    TotalAreaScales(rooms, k);
    HangersScale(rooms, k);
    BillOfMaterialsScales(a, h, s, k);
    QuoteScales(a, BillOfMaterials(a, h, s), s.prices, s.vatRate, s.profitMargin, s.labourCost, k);
  }

  /** Rooms of zero area give all-zero quantities and costs. */
  lemma ZeroAreas(rooms: seq<Room>, s: Settings)
    requires ValidDimensions(s) && rooms != []
    requires forall i :: 0 <= i < |rooms| ==> rooms[i].netArea == 0.0
    ensures Estimate(rooms, s)
      == Ok(Breakdown(0.0, Quantities(0.0, 0.0, 0.0, 0.0, 0.0, 0.0, 0.0, 0.0, 0.0),
                      0.0, 0.0, 0.0, 0.0, 0.0, 0.0))
  {
    assert ScaleAreas(rooms, 0.0) == rooms;
    EstimateScales(rooms, s, 0.0);
  }

  // ---------------------------------------------------------------------
  // Worked examples with the application's default settings

  /** The application's default settings (board 3 m, studs every 0.6 m, 5% waste). */
  const DefaultSettings := Settings(
    boardLength := 3.0, studSpacing := 0.6, structure := Single,
    prices := Prices(3.5, 2.8, 2.0, 1.5, 5.0, 15.0, 4.0, 8.0, 3.0),
    waste := Waste(5.0, 5.0, 5.0, 5.0, 5.0),
    vatRate := 24.0, profitMargin := 10.0, labourCost := 15.0)

  /** A single 100 m² ceiling: total area 100 m², 80 hangers. */
  lemma SingleCeilingFolds()
    ensures TotalArea([Room(100.0, Ceiling)]) == 100.0
    ensures Hangers([Room(100.0, Ceiling)]) == 80.0
  {
    var rooms := [Room(100.0, Ceiling)];
    assert rooms[..0] == [];
    assert CeilingRooms(rooms) == rooms;
  }

  /** One 100 m² ceiling with the default settings. */
  lemma DefaultCeilingExample()
    ensures Estimate([Room(100.0, Ceiling)], DefaultSettings)
      == Ok(Breakdown(
        100.0,
        Quantities(175.0 / 6.0, 175.0, 210.0, 84.0, 105.0, 2500.0, 4.0 / 3.0, 1.25, 80.0),
        23471.0 / 12.0, 1500.0, 41471.0 / 12.0,
        41471.0 / 120.0, 456181.0 / 500.0, 14141611.0 / 3000.0))
  {
    SingleCeilingFolds();
    var s := DefaultSettings;
    var q := Quantities(175.0 / 6.0, 175.0, 210.0, 84.0, 105.0, 2500.0, 4.0 / 3.0, 1.25, 80.0);
    assert BillOfMaterials(100.0, 80.0, s) == q;
    assert MaterialsCost(q, s.prices) == 23471.0 / 12.0;
    assert Profit(41471.0 / 12.0, 10.0) == 41471.0 / 120.0;
  }

  /** The same ceiling with no waste allowance at all. */
  lemma NoWasteCeilingExample()
    ensures Estimate([Room(100.0, Ceiling)], DefaultSettings.(waste := Waste(0.0, 0.0, 0.0, 0.0, 0.0)))
      == Ok(Breakdown(
        100.0,
        Quantities(250.0 / 9.0, 500.0 / 3.0, 200.0, 80.0, 100.0, 2500.0, 4.0 / 3.0, 1.25, 80.0),
        33781.0 / 18.0, 1500.0, 60781.0 / 18.0,
        60781.0 / 180.0, 668591.0 / 750.0, 20726321.0 / 4500.0))
  {
    SingleCeilingFolds();
    var s := DefaultSettings.(waste := Waste(0.0, 0.0, 0.0, 0.0, 0.0));
    var q := Quantities(250.0 / 9.0, 500.0 / 3.0, 200.0, 80.0, 100.0, 2500.0, 4.0 / 3.0, 1.25, 80.0);
    assert BillOfMaterials(100.0, 80.0, s) == q;
    assert MaterialsCost(q, s.prices) == 33781.0 / 18.0;
    assert Profit(60781.0 / 18.0, 10.0) == 60781.0 / 180.0;
  }
}

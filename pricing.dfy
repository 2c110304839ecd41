/** The pricing engine: maps a house configuration to a base price, an
    ordered list of cost items, a total price and a five-stage duration
    estimate. All rules are fixed tables and closed-form formulas of
    pricing version 2025-10-01.

    Arithmetic is over `real`; `Math.round` is `Round`, rounding halves
    upwards. `Price` is the specification of the whole computation and
    `ComputePrice` is the step-by-step procedure proved equal to it. */
module Pricing {
  import opened Types

  const PricingVersion: string := "2025-10-01"

  // ---------------------------------------------------------------------------
  // Rounding, clamping, generic sequence helpers
  // ---------------------------------------------------------------------------

  /** `Math.round`: the nearest integer, halves rounded up. */
  function Round(x: real): int {
    (x + 0.5).Floor
  }

  /** `Round(x)` is within half a unit of `x`, ties resolved upwards. */
  lemma RoundNearest(x: real)
    ensures Round(x) as real - 0.5 <= x < Round(x) as real + 0.5
  {
  }

  lemma RoundMonotone(x: real, y: real)
    requires x <= y
    ensures Round(x) <= Round(y)
  {
  }

  /** `Math.round(basePrice * fraction)`: a fraction of the base price in whole currency units. */
  function Share(basePrice: int, fraction: real): int {
    Round(basePrice as real * fraction)
  }

  /** `Math.round(amount * promo)`: the promo multiplier applied to an aggregate amount. */
  function WithPromo(amount: real, promo: real): int {
    Round(amount * promo)
  }

  lemma RoundOfInteger(n: int)
    ensures Round(n as real) == n
  {
  }

  /** `Math.max(min, Math.min(max, value))`. */
  function Clamp(value: int, min: int, max: int): (r: int)
    ensures min <= r
    ensures min <= max ==> r <= max
    ensures min <= value <= max ==> r == value
    ensures value < min ==> r == min
    ensures min <= max < value ==> r == max
  {
    var upper := if max < value then max else value;
    if min > upper then min else upper
  }

  function MapSeq<A, B>(f: A -> B, s: seq<A>): (r: seq<B>)
    ensures |r| == |s|
    ensures forall k :: 0 <= k < |s| ==> r[k] == f(s[k])
  {
    seq(|s|, k requires 0 <= k < |s| => f(s[k]))
  }

  lemma MapSeqAppend<A, B>(f: A -> B, a: seq<A>, b: seq<A>)
    ensures MapSeq(f, a + b) == MapSeq(f, a) + MapSeq(f, b)
  {
    assert forall k :: 0 <= k < |a + b| ==> MapSeq(f, a + b)[k] == (MapSeq(f, a) + MapSeq(f, b))[k];
  }

  /** `[x]` when `b` holds, else `[]`: one conditional `push`. */
  function Opt<T>(b: bool, x: T): seq<T> {
    if b then [x] else []
  }

  /** The elements of `order` that occur in `chosen`, in the order of
      `order`, each at most as often as in `order`: a fixed catalogue
      filtered by a selection list (`catalogue.includes` tests in turn). */
  function Selected<T(==)>(order: seq<T>, chosen: seq<T>): seq<T> {
    if order == [] then []
    else Selected(order[..|order| - 1], chosen) + Opt(order[|order| - 1] in chosen, order[|order| - 1])
  }

  /** An element is selected exactly when it is in the catalogue and in the selection list. */
  lemma {:induction false} SelectedMembers<T(!new)>(order: seq<T>, chosen: seq<T>)
    ensures forall x :: x in Selected(order, chosen) <==> x in order && x in chosen
    ensures |Selected(order, chosen)| <= |order|
  {
    if order != [] {
      var init := order[..|order| - 1];
      assert order == init + [order[|order| - 1]];
      SelectedMembers(init, chosen);
    }
  }

  ghost predicate Increasing<T>(s: seq<T>, rank: T -> int) {
    forall i, j :: 0 <= i < j < |s| ==> rank(s[i]) < rank(s[j])
  }

  /** Filtering keeps the catalogue order; in particular nothing occurs twice. */
  lemma {:induction false} SelectedKeepsOrder<T(!new)>(order: seq<T>, chosen: seq<T>, rank: T -> int)
    requires Increasing(order, rank)
    ensures Increasing(Selected(order, chosen), rank)
  {
    if order != [] {
      var init := order[..|order| - 1];
      var last := order[|order| - 1];
      SelectedKeepsOrder(init, chosen, rank);
      SelectedMembers(init, chosen);
      var s := Selected(init, chosen);
      forall x | x in s ensures rank(x) < rank(last) {
        var p :| 0 <= p < |init| && init[p] == x;
        assert order[p] == x;
      }
      var r := s + Opt(last in chosen, last);
      forall i, j | 0 <= i < j < |r| ensures rank(r[i]) < rank(r[j]) {
        if j >= |s| {
          assert r[i] in s;
        }
      }
    }
  }

  /** Left-to-right sum of `f` over the items (`reduce` from 0). */
  function SumOf(items: seq<PriceItem>, f: PriceItem -> real): real {
    if items == [] then 0.0
    else SumOf(items[..|items| - 1], f) + f(items[|items| - 1])
  }

  lemma {:induction false} SumOfAppend(a: seq<PriceItem>, b: seq<PriceItem>, f: PriceItem -> real)
    ensures SumOf(a + b, f) == SumOf(a, f) + SumOf(b, f)
  {
    if b == [] {
      assert a + b == a;
    } else {
      var init := b[..|b| - 1];
      assert (a + b)[..|a + b| - 1] == a + init;
      assert (a + b)[|a + b| - 1] == b[|b| - 1];
      SumOfAppend(a, init, f);
    }
  }

  function AmountOf(i: PriceItem): real { i.amount }
  function PercentRateOf(i: PriceItem): real { if i.itemType == Percent then i.unitPrice else 0.0 }
  function PercentAmountOf(i: PriceItem): real { if i.itemType == Percent then i.amount else 0.0 }
  function OtherAmountOf(i: PriceItem): real { if i.itemType == Percent then 0.0 else i.amount }

  /** `items.reduce((sum, i) => sum + i.amount, 0)`. */
  function AmountTotal(items: seq<PriceItem>): real { SumOf(items, AmountOf) }

  /** `items.filter(percent).reduce((sum, i) => sum + i.unitPrice, 0)`. */
  function PercentRateSum(items: seq<PriceItem>): real { SumOf(items, PercentRateOf) }

  /** The amounts of the percent-type items alone. */
  function PercentItemsTotal(items: seq<PriceItem>): real { SumOf(items, PercentAmountOf) }

  /** The amounts of all items that are not percent-type. */
  function OtherItemsTotal(items: seq<PriceItem>): real { SumOf(items, OtherAmountOf) }

  lemma {:induction false} AmountTotalSplits(items: seq<PriceItem>)
    ensures AmountTotal(items) == OtherItemsTotal(items) + PercentItemsTotal(items)
  {
    if items != [] {
      AmountTotalSplits(items[..|items| - 1]);
    }
  }

  // ---------------------------------------------------------------------------
  // Rate tables and coefficients
  // ---------------------------------------------------------------------------

  /** Currency per square metre by wall material. */
  function BaseRatePerM2(m: WallMaterial): (rate: int)
    ensures 75000 <= rate <= 95000
    ensures rate == 75000 <==> m == Wood
    ensures rate == 95000 <==> m == Brick
  {
    match m
    case Wood => 75000
    case Brick => 95000
    case AeratedConcrete => 85000
  }

  /** 1.0 for one floor, 1.08 for two, 1.15 for any other value. */
  function FloorCoefficient(floors: int): (c: real)
    ensures 1.0 <= c <= 1.15
    ensures c == 1.0 <==> floors == 1
  {
    if floors == 1 then 1.0
    else if floors == 2 then 1.08
    else 1.15
  }

  function FinishMultiplier(level: FinishLevel): (c: real)
    ensures 0.85 <= c <= 1.2
    ensures c == 1.0 <==> level == Basic
  {
    match level
    case Shell => 0.85
    case Basic => 1.0
    case Turnkey => 1.2
  }

  function Promo(input: CalculationInput): real {
    input.promoMultiplier.GetOr(1.0)
  }

  function ExtrasOf(input: CalculationInput): seq<Extra> {
    input.extras.GetOr([])
  }

  /** `round(area * rate * floorCoeff * finishMult)`. */
  function BasePrice(input: CalculationInput): int {
    Round(input.area * BaseRatePerM2(input.wallMaterial) as real
          * FloorCoefficient(input.floors) * FinishMultiplier(input.finishLevel))
  }

  // ---------------------------------------------------------------------------
  // Cost items
  // ---------------------------------------------------------------------------

  /** The stated invariant of a cost item: `amount` is what its type,
      unit price and quantity imply (for a percent item, given the base
      price). */
  predicate AmountMatches(item: PriceItem, basePrice: int) {
    match item.itemType
    case Fixed => item.quantity.None? && item.amount == item.unitPrice
    case PerM2 => item.quantity.Some? && item.amount == item.unitPrice * item.quantity.value
    case Percent => item.amount == Share(basePrice, item.unitPrice) as real
  }

  function FoundationName(t: FoundationType): string {
    match t
    case Slab => "slab"
    case Strip => "strip"
    case Pile => "pile"
  }

  /** The single foundation item, priced per square metre of the house. */
  function FoundationCost(t: FoundationType, area: real): (item: PriceItem)
    ensures item.itemType == PerM2 && item.quantity == Some(area) && AmountMatches(item, 0)
    ensures item.category == Some("foundation")
    ensures item.unitPrice == (match t case Slab => 18000.0 case Strip => 14000.0 case Pile => 12000.0)
  {
    var unitPrice := if t == Slab then 18000.0 else if t == Strip then 14000.0 else 12000.0;
    PriceItem("foundation_" + FoundationName(t), "Фундамент (" + FoundationName(t) + ")",
              PerM2, unitPrice, Some(area), unitPrice * area, Some("foundation"))
  }

  const EngineeringOrder: seq<EngineeringOption> :=
    [HeatingRadiators, WarmFloor, Ventilation, WaterSupply, Septic, Electricity]

  function EngineeringRank(o: EngineeringOption): int {
    match o
    case HeatingRadiators => 0
    case WarmFloor => 1
    case Ventilation => 2
    case WaterSupply => 3
    case Septic => 4
    case Electricity => 5
  }

  function EngineeringId(o: EngineeringOption): string {
    match o
    case HeatingRadiators => "eng_heating"
    case WarmFloor => "eng_warm_floor"
    case Ventilation => "eng_ventilation"
    case WaterSupply => "eng_water"
    case Septic => "eng_septic"
    case Electricity => "eng_electric"
  }

  /** The cost item of one engineering option for a house of `area`. */
  function EngineeringItem(o: EngineeringOption, area: real): (item: PriceItem)
    ensures item.id == EngineeringId(o) && item.category == Some("engineering")
    ensures item.itemType != Percent && AmountMatches(item, 0)
    ensures area >= 0.0 ==> item.amount >= 0.0
    ensures o == HeatingRadiators ==> item.itemType == PerM2 && item.unitPrice == 2800.0 && item.quantity == Some(area)
    ensures o == WarmFloor ==> item.itemType == PerM2 && item.unitPrice == 1900.0 && item.quantity == Some(area * 0.6)
    ensures o == WarmFloor ==> item.amount == 1900.0 * area * 0.6
    ensures o == Ventilation ==> item.itemType == Fixed && item.amount == 250000.0
    ensures o == WaterSupply ==> item.itemType == Fixed && item.amount == 180000.0
    ensures o == Septic ==> item.itemType == Fixed && item.amount == 220000.0
    ensures o == Electricity ==> item.itemType == PerM2 && item.unitPrice == 900.0 && item.quantity == Some(area)
  {
    match o
    case HeatingRadiators =>
      PriceItem(EngineeringId(o), "Отопление (радиаторы)", PerM2, 2800.0, Some(area), 2800.0 * area, Some("engineering"))
    case WarmFloor =>
      PriceItem(EngineeringId(o), "Тёплый пол (водяной)", PerM2, 1900.0, Some(area * 0.6), 1900.0 * area * 0.6, Some("engineering"))
    case Ventilation =>
      PriceItem(EngineeringId(o), "Вентиляция приточно-вытяжная", Fixed, 250000.0, None, 250000.0, Some("engineering"))
    case WaterSupply =>
      PriceItem(EngineeringId(o), "Водоснабжение", Fixed, 180000.0, None, 180000.0, Some("engineering"))
    case Septic =>
      PriceItem(EngineeringId(o), "Канализация (септик)", Fixed, 220000.0, None, 220000.0, Some("engineering"))
    case Electricity =>
      PriceItem(EngineeringId(o), "Электрика", PerM2, 900.0, Some(area), 900.0 * area, Some("engineering"))
  }

  /** Engineering items: one per selected option, in catalogue order. */
  function EngineeringItems(opts: seq<EngineeringOption>, area: real): seq<PriceItem> {
    MapSeq((o: EngineeringOption) => EngineeringItem(o, area), Selected(EngineeringOrder, opts))
  }

  const ExtrasOrder: seq<Extra> := [Terrace, Fireplace, PanoramicWindows, Garage]

  function ExtraRank(e: Extra): int {
    match e
    case Terrace => 0
    case Fireplace => 1
    case PanoramicWindows => 2
    case Garage => 3
  }

  function ExtraId(e: Extra): string {
    match e
    case Terrace => "extra_terrace"
    case Fireplace => "extra_fireplace"
    case PanoramicWindows => "extra_panoramic"
    case Garage => "extra_garage"
  }

  /** Terrace area: a fifth of the house area, kept within [12, 40]. */
  function TerraceQuantity(area: real): (q: real)
    ensures 12.0 <= q <= 40.0
    ensures 60.0 <= area <= 200.0 ==> q == area * 0.2
    ensures area * 0.2 <= 12.0 ==> q == 12.0
    ensures area * 0.2 >= 40.0 ==> q == 40.0
  {
    var upper := if 40.0 < area * 0.2 then 40.0 else area * 0.2;
    if 12.0 > upper then 12.0 else upper
  }

  /** The cost item of one extra, before the percent pass: the panoramic
      windows item carries its fraction and a placeholder amount of 0. */
  function ExtraItem(e: Extra, area: real): (item: PriceItem)
    ensures item.id == ExtraId(e) && item.category == Some("extras")
    ensures item.itemType == Percent <==> e == PanoramicWindows
    ensures e != PanoramicWindows ==> AmountMatches(item, 0) && item.amount >= 0.0
    ensures e == PanoramicWindows ==> item.unitPrice == 0.06
    ensures e == Terrace ==> item.itemType == PerM2 && item.unitPrice == 14000.0 && item.quantity == Some(TerraceQuantity(area))
    ensures e == Fireplace ==> item.itemType == Fixed && item.amount == 180000.0
    ensures e == PanoramicWindows ==> item.amount == 0.0
    ensures e == Garage ==> item.itemType == Fixed && item.amount == 700000.0
  {
    match e
    case Terrace =>
      var q := TerraceQuantity(area);
      PriceItem(ExtraId(e), "Терраса", PerM2, 14000.0, Some(q), 14000.0 * q, Some("extras"))
    case Fireplace =>
      PriceItem(ExtraId(e), "Камин", Fixed, 180000.0, None, 180000.0, Some("extras"))
    case PanoramicWindows =>
      PriceItem(ExtraId(e), "Панорамное остекление", Percent, 0.06, None, 0.0, Some("extras"))
    case Garage =>
      PriceItem(ExtraId(e), "Гараж (пристрой)", Fixed, 700000.0, None, 700000.0, Some("extras"))
  }

  /** Extras items: one per selected extra, in catalogue order. */
  function ExtrasItems(extras: seq<Extra>, area: real): seq<PriceItem> {
    MapSeq((e: Extra) => ExtraItem(e, area), Selected(ExtrasOrder, extras))
  }

  /** The second pass: a percent item's amount becomes its fraction of the base price. */
  function Settle(item: PriceItem, basePrice: int): (r: PriceItem)
    ensures r == item.(amount := r.amount)
    ensures r.itemType == Percent ==> AmountMatches(r, basePrice)
    ensures r.itemType != Percent ==> r == item
  {
    if item.itemType == Percent then item.(amount := Share(basePrice, item.unitPrice) as real)
    else item
  }

  function SettleAll(items: seq<PriceItem>, basePrice: int): seq<PriceItem> {
    MapSeq((i: PriceItem) => Settle(i, basePrice), items)
  }

  /** The items in the order they are pushed: foundation, engineering, extras. */
  function CollectedItems(input: CalculationInput): seq<PriceItem> {
    [FoundationCost(input.foundationType, input.area)]
      + EngineeringItems(input.engineeringOptions, input.area)
      + ExtrasItems(ExtrasOf(input), input.area)
  }

  /** The item list once the percent pass has run with `basePrice`. */
  function SettledItems(input: CalculationInput, basePrice: int): seq<PriceItem> {
    SettleAll(CollectedItems(input), basePrice)
  }

  // ---------------------------------------------------------------------------
  // Stage estimate
  // ---------------------------------------------------------------------------

  function ComplexityFactor(floors: int): real {
    if floors == 1 then 1.0 else if floors == 2 then 1.15 else 1.3
  }

  /** The five construction stages with their clamped week counts. */
  function EstimateStages(input: CalculationInput, basePrice: int): (stages: seq<StageEstimate>)
    ensures |stages| == 5
    ensures stages[0].key == Design && stages[1].key == Foundation && stages[2].key == Frame
    ensures stages[3].key == Engineering && stages[4].key == Finishing
    ensures 1 <= stages[0].weeks <= 4 && 1 <= stages[1].weeks <= 6 && 2 <= stages[2].weeks <= 12
    ensures 1 <= stages[3].weeks <= 6 && 1 <= stages[4].weeks <= 8
  {
    var weeks := Round(basePrice as real / 1000000.0 * 3.0 * ComplexityFactor(input.floors));
    [ StageEstimate(Design, "Проектирование", Clamp(Round(weeks as real * 0.15), 1, 4)),
      StageEstimate(Foundation, "Фундамент", Clamp(Round(weeks as real * 0.2), 1, 6)),
      StageEstimate(Frame, "Коробка", Clamp(Round(weeks as real * 0.35), 2, 12)),
      StageEstimate(Engineering, "Инженерия", Clamp(Round(weeks as real * 0.15), 1, 6)),
      StageEstimate(Finishing, "Отделка", Clamp(Round(weeks as real * 0.15), 1, 8)) ]
  }

  /** `stages.reduce((sum, s) => sum + s.weeks, 0)`. */
  function WeeksTotal(stages: seq<StageEstimate>): int {
    if stages == [] then 0
    else WeeksTotal(stages[..|stages| - 1]) + stages[|stages| - 1].weeks
  }

  // ---------------------------------------------------------------------------
  // The whole computation
  // ---------------------------------------------------------------------------

  /** The final total: the base price, the percent surcharge and every
      item's amount (percent items included again), times the promo. */
  function Total(basePrice: int, collected: seq<PriceItem>, promo: real): int {
    var percentAmount := Share(basePrice, PercentRateSum(collected));
    WithPromo(Subtotal(basePrice, percentAmount, AmountTotal(SettleAll(collected, basePrice))), promo)
  }

  /** `basePrice + percentAmount + itemsTotal`, before the promo. */
  function Subtotal(basePrice: int, percentAmount: int, itemsTotal: real): real {
    basePrice as real + percentAmount as real + itemsTotal
  }

  /** The result `computePrice` returns for `input`. */
  function Price(input: CalculationInput): CalculationResult {
    var basePrice := BasePrice(input);
    var collected := CollectedItems(input);
    var stages := EstimateStages(input, basePrice);
    CalculationResult(PricingVersion, BaseRatePerM2(input.wallMaterial), basePrice,
                      SettledItems(input, basePrice), Total(basePrice, collected, Promo(input)),
                      stages, WeeksTotal(stages))
  }

  /** `engineeringCosts`: one conditional push per option, in catalogue order. */
  method EngineeringCosts(input: CalculationInput) returns (items: seq<PriceItem>)
    ensures items == EngineeringItems(input.engineeringOptions, input.area)
  {
    var opts, area := input.engineeringOptions, input.area;
    items := [];
    if HeatingRadiators in opts { items := items + [EngineeringItem(HeatingRadiators, area)]; }
    assert items == Opt(HeatingRadiators in opts, EngineeringItem(HeatingRadiators, area));
    ghost var pushed := items;
    if WarmFloor in opts { items := items + [EngineeringItem(WarmFloor, area)]; }
    assert items == pushed + Opt(WarmFloor in opts, EngineeringItem(WarmFloor, area));
    pushed := items;
    if Ventilation in opts { items := items + [EngineeringItem(Ventilation, area)]; }
    assert items == pushed + Opt(Ventilation in opts, EngineeringItem(Ventilation, area));
    pushed := items;
    if WaterSupply in opts { items := items + [EngineeringItem(WaterSupply, area)]; }
    assert items == pushed + Opt(WaterSupply in opts, EngineeringItem(WaterSupply, area));
    pushed := items;
    if Septic in opts { items := items + [EngineeringItem(Septic, area)]; }
    assert items == pushed + Opt(Septic in opts, EngineeringItem(Septic, area));
    pushed := items;
    if Electricity in opts { items := items + [EngineeringItem(Electricity, area)]; }
    assert items == pushed + Opt(Electricity in opts, EngineeringItem(Electricity, area));
    EngineeringItemsUnfold(opts, area);
  }

  /** `extrasCosts`: one conditional push per extra, in catalogue order. */
  method ExtrasCosts(input: CalculationInput) returns (items: seq<PriceItem>)
    ensures items == ExtrasItems(ExtrasOf(input), input.area)
  {
    var extras, area := input.extras.GetOr([]), input.area;
    items := [];
    if Terrace in extras { items := items + [ExtraItem(Terrace, area)]; }
    assert items == Opt(Terrace in extras, ExtraItem(Terrace, area));
    ghost var pushed := items;
    if Fireplace in extras { items := items + [ExtraItem(Fireplace, area)]; }
    assert items == pushed + Opt(Fireplace in extras, ExtraItem(Fireplace, area));
    pushed := items;
    if PanoramicWindows in extras { items := items + [ExtraItem(PanoramicWindows, area)]; }
    assert items == pushed + Opt(PanoramicWindows in extras, ExtraItem(PanoramicWindows, area));
    pushed := items;
    if Garage in extras { items := items + [ExtraItem(Garage, area)]; }
    assert items == pushed + Opt(Garage in extras, ExtraItem(Garage, area));
    ExtrasItemsUnfold(extras, area);
  }

  /** `computePrice`: collect the items, settle the percent items in place,
      then aggregate. */
  method ComputePrice(input: CalculationInput) returns (r: CalculationResult)
    ensures r == Price(input)
  {
    var area := input.area;
    var baseRate := BaseRatePerM2(input.wallMaterial);
    var promo := Promo(input);
    var basePrice := BasePrice(input);

    var items: seq<PriceItem> := [];
    items := items + [FoundationCost(input.foundationType, area)];
    var engineering := EngineeringCosts(input);
    items := items + engineering;
    var extras := ExtrasCosts(input);
    items := items + extras;
    ghost var collected := items;
    assert collected == CollectedItems(input);

    var percentAdd := PercentRateSum(items);
    var percentAmount := Share(basePrice, percentAdd);

    for k := 0 to |items|
      invariant |items| == |collected|
      invariant forall j :: 0 <= j < k ==> items[j] == Settle(collected[j], basePrice)
      invariant forall j :: k <= j < |items| ==> items[j] == collected[j]
    {
      var item := items[k];
      if item.itemType == Percent {
        items := items[k := item.(amount := Share(basePrice, item.unitPrice) as real)];
      }
    }
    assert items == SettleAll(collected, basePrice);

    var itemsTotal := AmountTotal(items);
    var totalPrice := WithPromo(Subtotal(basePrice, percentAmount, itemsTotal), promo);
    var stages := EstimateStages(input, basePrice);
    var durationWeeks := WeeksTotal(stages);
    r := CalculationResult(PricingVersion, baseRate, basePrice, items, totalPrice, stages, durationWeeks);
  }

  // ---------------------------------------------------------------------------
  // Unfolding the catalogue filters
  // ---------------------------------------------------------------------------

  lemma {:induction false} SelectedAppend<T>(a: seq<T>, b: seq<T>, chosen: seq<T>)
    ensures Selected(a + b, chosen) == Selected(a, chosen) + Selected(b, chosen)
  {
    if b == [] {
      assert a + b == a;
    } else {
      var init := b[..|b| - 1];
      assert (a + b)[..|a + b| - 1] == a + init;
      assert b[..|b| - 1] == init;
      SelectedAppend(a, init, chosen);
    }
  }

  lemma SelectedSingle<T>(x: T, chosen: seq<T>)
    ensures Selected([x], chosen) == Opt(x in chosen, x)
  {
    assert [x][..0] == [];
  }

  lemma SelectedThree<T>(x: T, y: T, z: T, chosen: seq<T>)
    ensures Selected([x, y, z], chosen) == Opt(x in chosen, x) + Opt(y in chosen, y) + Opt(z in chosen, z)
  {
    assert [x, y, z] == [x] + [y] + [z];
    SelectedAppend([x] + [y], [z], chosen);
    SelectedAppend([x], [y], chosen);
    SelectedSingle(x, chosen);
    SelectedSingle(y, chosen);
    SelectedSingle(z, chosen);
  }

  lemma EngineeringSelectedUnfold(opts: seq<EngineeringOption>)
    ensures Selected(EngineeringOrder, opts) ==
      Opt(HeatingRadiators in opts, HeatingRadiators) + Opt(WarmFloor in opts, WarmFloor)
      + Opt(Ventilation in opts, Ventilation) + Opt(WaterSupply in opts, WaterSupply)
      + Opt(Septic in opts, Septic) + Opt(Electricity in opts, Electricity)
  {
    var a := [HeatingRadiators, WarmFloor, Ventilation];
    var b := [WaterSupply, Septic, Electricity];
    assert EngineeringOrder == a + b;
    SelectedAppend(a, b, opts);
    SelectedThree(HeatingRadiators, WarmFloor, Ventilation, opts);
    SelectedThree(WaterSupply, Septic, Electricity, opts);
  }

  lemma EngineeringItemsUnfold(opts: seq<EngineeringOption>, area: real)
    ensures EngineeringItems(opts, area) ==
      Opt(HeatingRadiators in opts, EngineeringItem(HeatingRadiators, area))
      + Opt(WarmFloor in opts, EngineeringItem(WarmFloor, area))
      + Opt(Ventilation in opts, EngineeringItem(Ventilation, area))
      + Opt(WaterSupply in opts, EngineeringItem(WaterSupply, area))
      + Opt(Septic in opts, EngineeringItem(Septic, area))
      + Opt(Electricity in opts, EngineeringItem(Electricity, area))
  {
    var f := (o: EngineeringOption) => EngineeringItem(o, area);
    EngineeringSelectedUnfold(opts);
    var o1, o2, o3 := Opt(HeatingRadiators in opts, HeatingRadiators), Opt(WarmFloor in opts, WarmFloor),
      Opt(Ventilation in opts, Ventilation);
    var o4, o5, o6 := Opt(WaterSupply in opts, WaterSupply), Opt(Septic in opts, Septic),
      Opt(Electricity in opts, Electricity);
    MapSeqAppend(f, o1 + o2 + o3 + o4 + o5, o6);
    MapSeqAppend(f, o1 + o2 + o3 + o4, o5);
    MapSeqAppend(f, o1 + o2 + o3, o4);
    MapSeqAppend(f, o1 + o2, o3);
    MapSeqAppend(f, o1, o2);
    MapSeqOpt(f, HeatingRadiators in opts, HeatingRadiators);
    MapSeqOpt(f, WarmFloor in opts, WarmFloor);
    MapSeqOpt(f, Ventilation in opts, Ventilation);
    MapSeqOpt(f, WaterSupply in opts, WaterSupply);
    MapSeqOpt(f, Septic in opts, Septic);
    MapSeqOpt(f, Electricity in opts, Electricity);
  }

  lemma MapSeqOpt<A, B>(f: A -> B, b: bool, x: A)
    ensures MapSeq(f, Opt(b, x)) == Opt(b, f(x))
  {
    if b {
      assert MapSeq(f, [x])[0] == f(x);
    }
  }

  lemma ExtrasSelectedUnfold(extras: seq<Extra>)
    ensures Selected(ExtrasOrder, extras) ==
      Opt(Terrace in extras, Terrace) + Opt(Fireplace in extras, Fireplace)
      + Opt(PanoramicWindows in extras, PanoramicWindows) + Opt(Garage in extras, Garage)
  {
    assert ExtrasOrder == [Terrace] + [Fireplace] + [PanoramicWindows] + [Garage];
    SelectedAppend([Terrace] + [Fireplace] + [PanoramicWindows], [Garage], extras);
    SelectedAppend([Terrace] + [Fireplace], [PanoramicWindows], extras);
    SelectedAppend([Terrace], [Fireplace], extras);
    SelectedSingle(Terrace, extras);
    SelectedSingle(Fireplace, extras);
    SelectedSingle(PanoramicWindows, extras);
    SelectedSingle(Garage, extras);
  }

  lemma ExtrasItemsUnfold(extras: seq<Extra>, area: real)
    ensures ExtrasItems(extras, area) ==
      Opt(Terrace in extras, ExtraItem(Terrace, area))
      + Opt(Fireplace in extras, ExtraItem(Fireplace, area))
      + Opt(PanoramicWindows in extras, ExtraItem(PanoramicWindows, area))
      + Opt(Garage in extras, ExtraItem(Garage, area))
  {
    var f := (e: Extra) => ExtraItem(e, area);
    ExtrasSelectedUnfold(extras);
    var o1, o2, o3, o4 := Opt(Terrace in extras, Terrace), Opt(Fireplace in extras, Fireplace),
      Opt(PanoramicWindows in extras, PanoramicWindows), Opt(Garage in extras, Garage);
    MapSeqAppend(f, o1 + o2 + o3, o4);
    MapSeqAppend(f, o1 + o2, o3);
    MapSeqAppend(f, o1, o2);
    MapSeqOpt(f, Terrace in extras, Terrace);
    MapSeqOpt(f, Fireplace in extras, Fireplace);
    MapSeqOpt(f, PanoramicWindows in extras, PanoramicWindows);
    MapSeqOpt(f, Garage in extras, Garage);
  }
}

/** Properties of the pricing engine's result: the layout and order of the
    cost items, the amount each item carries, the double-counted percent
    surcharge, the price bounds and the duration bounds.

    Facts about the item list are first proved for an arbitrary base
    price `b` (`SettledItems(input, b)`) and then specialised to
    `Price(input)`, whose base price is `BasePrice(input)`. */
module PricingFacts {
  import opened Types
  import opened Pricing

  // ---------------------------------------------------------------------------
  // Layout of the item list
  // ---------------------------------------------------------------------------

  /** Position of an item id in the fixed output order: 0 for the
      foundation item, 1-6 for the engineering items, 7-10 for the extras. */
  function CatalogueRank(id: string): int {
    if id == "eng_heating" then 1
    else if id == "eng_warm_floor" then 2
    else if id == "eng_ventilation" then 3
    else if id == "eng_water" then 4
    else if id == "eng_septic" then 5
    else if id == "eng_electric" then 6
    else if id == "extra_terrace" then 7
    else if id == "extra_fireplace" then 8
    else if id == "extra_panoramic" then 9
    else if id == "extra_garage" then 10
    else 0
  }

  lemma EngineeringIdRank(o: EngineeringOption)
    ensures CatalogueRank(EngineeringId(o)) == 1 + EngineeringRank(o)
  {
  }

  lemma ExtraIdRank(e: Extra)
    ensures CatalogueRank(ExtraId(e)) == 7 + ExtraRank(e)
  {
  }

  lemma FoundationIdRank(t: FoundationType, area: real)
    ensures CatalogueRank(FoundationCost(t, area).id) == 0
  {
    var id := FoundationCost(t, area).id;
    assert id[0] == 'f';
  }

  lemma SettleAllNoPercent(items: seq<PriceItem>, basePrice: int)
    requires forall k :: 0 <= k < |items| ==> items[k].itemType != Percent
    ensures SettleAll(items, basePrice) == items
  {
  }

  /** Only the extras pass through the percent pass: no other item is
      percent-typed. */
  lemma SettledLayout(input: CalculationInput, b: int)
    ensures SettledItems(input, b) ==
      [FoundationCost(input.foundationType, input.area)]
      + EngineeringItems(input.engineeringOptions, input.area)
      + SettleAll(ExtrasItems(ExtrasOf(input), input.area), b)
  {
    var head := [FoundationCost(input.foundationType, input.area)]
      + EngineeringItems(input.engineeringOptions, input.area);
    var tail := ExtrasItems(ExtrasOf(input), input.area);
    MapSeqAppend((i: PriceItem) => Settle(i, b), head, tail);
    SettleAllNoPercent(head, b);
  }

  lemma ConcatBlocks(f: PriceItem, e: seq<PriceItem>, x: seq<PriceItem>)
    ensures |[f] + e + x| == 1 + |e| + |x| && ([f] + e + x)[0] == f
    ensures forall k :: 0 <= k < |e| ==> ([f] + e + x)[1 + k] == e[k]
    ensures forall k :: 0 <= k < |x| ==> ([f] + e + x)[1 + |e| + k] == x[k]
  {
  }

  lemma EngineeringItemsAt(opts: seq<EngineeringOption>, area: real)
    ensures var s := Selected(EngineeringOrder, opts);
      && |EngineeringItems(opts, area)| == |s|
      && forall k :: 0 <= k < |s| ==> EngineeringItems(opts, area)[k] == EngineeringItem(s[k], area)
  {
  }

  lemma SettledExtrasAt(extras: seq<Extra>, area: real, basePrice: int)
    ensures var t := Selected(ExtrasOrder, extras);
      && |SettleAll(ExtrasItems(extras, area), basePrice)| == |t|
      && forall k :: 0 <= k < |t| ==>
           SettleAll(ExtrasItems(extras, area), basePrice)[k] == Settle(ExtraItem(t[k], area), basePrice)
  {
  }

  lemma LayoutEngineering(input: CalculationInput, b: int, items: seq<PriceItem>)
    requires items == [FoundationCost(input.foundationType, input.area)]
      + EngineeringItems(input.engineeringOptions, input.area)
      + SettleAll(ExtrasItems(ExtrasOf(input), input.area), b)
    ensures var s, t := Selected(EngineeringOrder, input.engineeringOptions),
                        Selected(ExtrasOrder, ExtrasOf(input));
      && |items| == 1 + |s| + |t|
      && items[0] == FoundationCost(input.foundationType, input.area)
      && (forall k :: 0 <= k < |s| ==> items[1 + k] == EngineeringItem(s[k], input.area))
  {
    var e := EngineeringItems(input.engineeringOptions, input.area);
    var x := SettleAll(ExtrasItems(ExtrasOf(input), input.area), b);
    ConcatBlocks(FoundationCost(input.foundationType, input.area), e, x);
    EngineeringItemsAt(input.engineeringOptions, input.area);
    SettledExtrasAt(ExtrasOf(input), input.area, b);
  }

  lemma LayoutExtras(input: CalculationInput, b: int, items: seq<PriceItem>)
    requires items == [FoundationCost(input.foundationType, input.area)]
      + EngineeringItems(input.engineeringOptions, input.area)
      + SettleAll(ExtrasItems(ExtrasOf(input), input.area), b)
    ensures var s, t := Selected(EngineeringOrder, input.engineeringOptions),
                        Selected(ExtrasOrder, ExtrasOf(input));
      forall k :: 0 <= k < |t| ==> items[1 + |s| + k] == Settle(ExtraItem(t[k], input.area), b)
  {
    var e := EngineeringItems(input.engineeringOptions, input.area);
    var x := SettleAll(ExtrasItems(ExtrasOf(input), input.area), b);
    ConcatBlocks(FoundationCost(input.foundationType, input.area), e, x);
    EngineeringItemsAt(input.engineeringOptions, input.area);
    SettledExtrasAt(ExtrasOf(input), input.area, b);
  }

  /** The per-position shape of a settled item list: item 0 is the
      foundation item, item `1 + k` the `k`-th selected engineering
      option's item, item `1 + |s| + k` the `k`-th selected extra's item
      after the percent pass with base price `b`. */
  ghost predicate InLayout(input: CalculationInput, b: int, items: seq<PriceItem>) {
    var s, t := Selected(EngineeringOrder, input.engineeringOptions),
                Selected(ExtrasOrder, ExtrasOf(input));
    && |items| == 1 + |s| + |t|
    && items[0] == FoundationCost(input.foundationType, input.area)
    && (forall k :: 0 <= k < |s| ==> items[1 + k] == EngineeringItem(s[k], input.area))
    && (forall k :: 0 <= k < |t| ==> items[1 + |s| + k] == Settle(ExtraItem(t[k], input.area), b))
  }

  lemma SettledBlocks(input: CalculationInput, b: int)
    ensures InLayout(input, b, SettledItems(input, b))
  {
    SettledLayout(input, b);
    LayoutEngineering(input, b, SettledItems(input, b));
    LayoutExtras(input, b, SettledItems(input, b));
  }

  lemma PriceBlocks(input: CalculationInput)
    ensures InLayout(input, BasePrice(input), Price(input).items)
  {
    SettledBlocks(input, BasePrice(input));
  }

  /** Every item's rank in the catalogue order, block by block. */
  lemma LayoutRanks(input: CalculationInput, b: int, items: seq<PriceItem>)
    requires InLayout(input, b, items)
    ensures var s, t := Selected(EngineeringOrder, input.engineeringOptions),
                        Selected(ExtrasOrder, ExtrasOf(input));
      && |items| == 1 + |s| + |t|
      && CatalogueRank(items[0].id) == 0
      && (forall k :: 0 <= k < |s| ==> CatalogueRank(items[1 + k].id) == 1 + EngineeringRank(s[k]))
      && (forall k :: 0 <= k < |t| ==> CatalogueRank(items[1 + |s| + k].id) == 7 + ExtraRank(t[k]))
  {
    var s, t := Selected(EngineeringOrder, input.engineeringOptions),
                Selected(ExtrasOrder, ExtrasOf(input));
    FoundationIdRank(input.foundationType, input.area);
    forall k | 0 <= k < |s| ensures CatalogueRank(items[1 + k].id) == 1 + EngineeringRank(s[k]) {
      EngineeringIdRank(s[k]);
    }
    forall k | 0 <= k < |t| ensures CatalogueRank(items[1 + |s| + k].id) == 7 + ExtraRank(t[k]) {
      ExtraIdRank(t[k]);
    }
  }

  /** Selected engineering options, and selected extras, come in catalogue order. */
  lemma SelectedEngineeringIncreasing(opts: seq<EngineeringOption>)
    ensures Increasing(Selected(EngineeringOrder, opts), EngineeringRank)
  {
    assert Increasing(EngineeringOrder, EngineeringRank);
    SelectedKeepsOrder(EngineeringOrder, opts, EngineeringRank);
  }

  lemma SelectedExtrasIncreasing(extras: seq<Extra>)
    ensures Increasing(Selected(ExtrasOrder, extras), ExtraRank)
  {
    assert Increasing(ExtrasOrder, ExtraRank);
    SelectedKeepsOrder(ExtrasOrder, extras, ExtraRank);
  }

  /** Every option is in the catalogue, so an option is selected exactly
      when it occurs in the input list. */
  lemma SelectedEngineeringExactly(opts: seq<EngineeringOption>)
    ensures forall o :: o in Selected(EngineeringOrder, opts) <==> o in opts
  {
    SelectedMembers(EngineeringOrder, opts);
    forall o ensures o in EngineeringOrder {
      assert EngineeringOrder[EngineeringRank(o)] == o;
    }
  }

  lemma SelectedExtrasExactly(extras: seq<Extra>)
    ensures forall e :: e in Selected(ExtrasOrder, extras) <==> e in extras
  {
    SelectedMembers(ExtrasOrder, extras);
    forall e ensures e in ExtrasOrder {
      assert ExtrasOrder[ExtraRank(e)] == e;
    }
  }

  /** Items ranked as in the layout, with each block's options in
      catalogue order, are in increasing rank order. */
  lemma RankedOrder(items: seq<PriceItem>, s: seq<EngineeringOption>, t: seq<Extra>)
    requires Increasing(s, EngineeringRank) && Increasing(t, ExtraRank)
    requires |items| == 1 + |s| + |t|
    requires CatalogueRank(items[0].id) == 0
    requires forall k :: 0 <= k < |s| ==> CatalogueRank(items[1 + k].id) == 1 + EngineeringRank(s[k])
    requires forall k :: 0 <= k < |t| ==> CatalogueRank(items[1 + |s| + k].id) == 7 + ExtraRank(t[k])
    ensures forall i, j :: 0 <= i < j < |items| ==> CatalogueRank(items[i].id) < CatalogueRank(items[j].id)
  {
    forall k | 1 <= k <= |s| ensures 1 <= CatalogueRank(items[k].id) <= 6 {
      assert CatalogueRank(items[1 + (k - 1)].id) == 1 + EngineeringRank(s[k - 1]);
    }
    forall k | |s| < k < |items| ensures 7 <= CatalogueRank(items[k].id) <= 10 {
      assert CatalogueRank(items[1 + |s| + (k - 1 - |s|)].id) == 7 + ExtraRank(t[k - 1 - |s|]);
    }
    BlockOrder(items, 1, s, EngineeringRank, 1);
    BlockOrder(items, 1 + |s|, t, ExtraRank, 7);
  }

  /** A block of items whose ranks are an increasing catalogue rank plus a
      constant is itself in increasing rank order. */
  lemma BlockOrder<T>(items: seq<PriceItem>, off: nat, t: seq<T>, rank: T -> int, c: int)
    requires Increasing(t, rank) && off + |t| <= |items|
    requires forall k :: 0 <= k < |t| ==> CatalogueRank(items[off + k].id) == c + rank(t[k])
    ensures forall i, j :: off <= i < j < off + |t| ==> CatalogueRank(items[i].id) < CatalogueRank(items[j].id)
  {
    forall i, j | off <= i < j < off + |t| ensures CatalogueRank(items[i].id) < CatalogueRank(items[j].id) {
      assert CatalogueRank(items[off + (i - off)].id) == c + rank(t[i - off]);
      assert CatalogueRank(items[off + (j - off)].id) == c + rank(t[j - off]);
    }
  }

  lemma LayoutInCatalogueOrder(input: CalculationInput, b: int, items: seq<PriceItem>)
    requires InLayout(input, b, items)
    ensures forall i, j :: 0 <= i < j < |items| ==> CatalogueRank(items[i].id) < CatalogueRank(items[j].id)
  {
    var s, t := Selected(EngineeringOrder, input.engineeringOptions),
                Selected(ExtrasOrder, ExtrasOf(input));
    LayoutRanks(input, b, items);
    SelectedEngineeringIncreasing(input.engineeringOptions);
    SelectedExtrasIncreasing(ExtrasOf(input));
    RankedOrder(items, s, t);
  }

  /** The items follow the fixed order foundation, heating, warm floor,
      ventilation, water, septic, electricity, terrace, fireplace,
      panoramic windows, garage; hence no id occurs twice, however often
      an option is repeated in the input lists. */
  lemma ItemsInCatalogueOrder(input: CalculationInput)
    ensures var items := Price(input).items;
      forall i, j :: 0 <= i < j < |items| ==> CatalogueRank(items[i].id) < CatalogueRank(items[j].id)
    ensures var items := Price(input).items;
      forall i, j :: 0 <= i < j < |items| ==> items[i].id != items[j].id
  {
    PriceBlocks(input);
    LayoutInCatalogueOrder(input, BasePrice(input), Price(input).items);
  }

  lemma LayoutFoundationFirst(input: CalculationInput, b: int, items: seq<PriceItem>)
    requires InLayout(input, b, items)
    ensures |items| >= 1
    ensures items[0].id == "foundation_" + FoundationName(input.foundationType)
    ensures items[0].itemType == PerM2 && items[0].quantity == Some(input.area)
    ensures items[0].amount == items[0].unitPrice * input.area
    ensures items[0].category == Some("foundation")
    ensures forall k :: 1 <= k < |items| ==> items[k].category != Some("foundation")
  {
    var s, t := Selected(EngineeringOrder, input.engineeringOptions),
                Selected(ExtrasOrder, ExtrasOf(input));
    forall k | 1 <= k < |items| ensures items[k].category != Some("foundation") {
      if k <= |s| {
        assert items[1 + (k - 1)] == EngineeringItem(s[k - 1], input.area);
      } else {
        assert items[1 + |s| + (k - 1 - |s|)] == Settle(ExtraItem(t[k - 1 - |s|], input.area), b);
      }
    }
  }

  /** `items[0]` is the foundation item, per square metre of the whole
      area, and no other item is in the foundation category. */
  lemma FoundationItemFirst(input: CalculationInput)
    ensures var items := Price(input).items;
      && |items| >= 1
      && items[0].id == "foundation_" + FoundationName(input.foundationType)
      && items[0].itemType == PerM2 && items[0].quantity == Some(input.area)
      && items[0].amount == items[0].unitPrice * input.area
      && items[0].category == Some("foundation")
      && (forall k :: 1 <= k < |items| ==> items[k].category != Some("foundation"))
  {
    PriceBlocks(input);
    LayoutFoundationFirst(input, BasePrice(input), Price(input).items);
  }

  lemma LayoutEngineeringFound(input: CalculationInput, b: int, items: seq<PriceItem>, o: EngineeringOption)
    requires InLayout(input, b, items) && o in input.engineeringOptions
    ensures exists k :: 0 <= k < |items| && items[k].id == EngineeringId(o)
  {
    var s := Selected(EngineeringOrder, input.engineeringOptions);
    SelectedEngineeringExactly(input.engineeringOptions);
    var p :| 0 <= p < |s| && s[p] == o;
    assert items[1 + p] == EngineeringItem(o, input.area);
  }

  /** The catalogue rank of an item tells its block: 0 for the
      foundation, 1 to 6 for engineering, 7 to 10 for extras. */
  lemma LayoutRankBlock(input: CalculationInput, b: int, items: seq<PriceItem>, k: int)
    requires InLayout(input, b, items) && 0 <= k < |items|
    ensures var s := Selected(EngineeringOrder, input.engineeringOptions);
      && (k == 0 ==> CatalogueRank(items[k].id) == 0)
      && (1 <= k <= |s| ==> 1 <= CatalogueRank(items[k].id) <= 6)
      && (|s| < k ==> 7 <= CatalogueRank(items[k].id) <= 10)
  {
    var s, t := Selected(EngineeringOrder, input.engineeringOptions),
                Selected(ExtrasOrder, ExtrasOf(input));
    LayoutRanks(input, b, items);
    if 1 <= k <= |s| {
      assert CatalogueRank(items[1 + (k - 1)].id) == 1 + EngineeringRank(s[k - 1]);
    } else if |s| < k {
      assert CatalogueRank(items[1 + |s| + (k - 1 - |s|)].id) == 7 + ExtraRank(t[k - 1 - |s|]);
    }
  }

  lemma LayoutEngineeringSelected(input: CalculationInput, b: int, items: seq<PriceItem>, o: EngineeringOption, k: int)
    requires InLayout(input, b, items) && 0 <= k < |items| && items[k].id == EngineeringId(o)
    ensures o in input.engineeringOptions
  {
    var s := Selected(EngineeringOrder, input.engineeringOptions);
    LayoutRankBlock(input, b, items, k);
    EngineeringIdRank(o);
    assert 1 <= k <= |s|;
    assert items[1 + (k - 1)] == EngineeringItem(s[k - 1], input.area);
    EngineeringIdRank(s[k - 1]);
    assert EngineeringRank(s[k - 1]) == EngineeringRank(o);
    assert s[k - 1] == o;
    SelectedEngineeringExactly(input.engineeringOptions);
  }

  lemma LayoutEngineeringPresence(input: CalculationInput, b: int, items: seq<PriceItem>, o: EngineeringOption)
    requires InLayout(input, b, items)
    ensures (exists k :: 0 <= k < |items| && items[k].id == EngineeringId(o)) <==> o in input.engineeringOptions
  {
    if o in input.engineeringOptions {
      LayoutEngineeringFound(input, b, items, o);
    }
    if k :| 0 <= k < |items| && items[k].id == EngineeringId(o) {
      LayoutEngineeringSelected(input, b, items, o, k);
    }
  }

  /** An engineering item is in the result exactly when its option occurs
      in the input list. */
  lemma EngineeringItemPresence(input: CalculationInput, o: EngineeringOption)
    ensures var items := Price(input).items;
      (exists k :: 0 <= k < |items| && items[k].id == EngineeringId(o)) <==> o in input.engineeringOptions
  {
    PriceBlocks(input);
    LayoutEngineeringPresence(input, BasePrice(input), Price(input).items, o);
  }

  lemma LayoutExtraFound(input: CalculationInput, b: int, items: seq<PriceItem>, e: Extra)
    requires InLayout(input, b, items) && e in ExtrasOf(input)
    ensures exists k :: 0 <= k < |items| && items[k].id == ExtraId(e)
  {
    var s, t := Selected(EngineeringOrder, input.engineeringOptions),
                Selected(ExtrasOrder, ExtrasOf(input));
    SelectedExtrasExactly(ExtrasOf(input));
    var p :| 0 <= p < |t| && t[p] == e;
    assert items[1 + |s| + p] == Settle(ExtraItem(e, input.area), b);
  }

  lemma LayoutExtraSelected(input: CalculationInput, b: int, items: seq<PriceItem>, e: Extra, k: int)
    requires InLayout(input, b, items) && 0 <= k < |items| && items[k].id == ExtraId(e)
    ensures e in ExtrasOf(input)
  {
    var s, t := Selected(EngineeringOrder, input.engineeringOptions),
                Selected(ExtrasOrder, ExtrasOf(input));
    LayoutRankBlock(input, b, items, k);
    ExtraIdRank(e);
    assert |s| < k;
    var f := t[k - 1 - |s|];
    assert items[1 + |s| + (k - 1 - |s|)] == Settle(ExtraItem(f, input.area), b);
    ExtraIdRank(f);
    assert ExtraRank(f) == ExtraRank(e);
    assert f == e;
    SelectedExtrasExactly(ExtrasOf(input));
  }

  lemma LayoutExtraPresence(input: CalculationInput, b: int, items: seq<PriceItem>, e: Extra)
    requires InLayout(input, b, items)
    ensures (exists k :: 0 <= k < |items| && items[k].id == ExtraId(e)) <==> e in ExtrasOf(input)
  {
    if e in ExtrasOf(input) {
      LayoutExtraFound(input, b, items, e);
    }
    if k :| 0 <= k < |items| && items[k].id == ExtraId(e) {
      LayoutExtraSelected(input, b, items, e, k);
    }
  }

  /** An extras item is in the result exactly when its extra occurs in
      the input list; an absent list selects nothing. */
  lemma ExtraItemPresence(input: CalculationInput, e: Extra)
    ensures var items := Price(input).items;
      (exists k :: 0 <= k < |items| && items[k].id == ExtraId(e))
      <==> input.extras.Some? && e in input.extras.value
  {
    PriceBlocks(input);
    LayoutExtraPresence(input, BasePrice(input), Price(input).items, e);
  }

  // ---------------------------------------------------------------------------
  // Item amounts
  // ---------------------------------------------------------------------------

  lemma EngineeringItemFacts(o: EngineeringOption, area: real, b: int)
    ensures var item := EngineeringItem(o, area);
      && AmountMatches(item, b)
      && item.itemType != Percent
      && item.id != ExtraId(PanoramicWindows)
  {
    EngineeringIdRank(o);
  }

  lemma SettledExtraFacts(e: Extra, area: real, b: int)
    ensures var item := Settle(ExtraItem(e, area), b);
      && AmountMatches(item, b)
      && (item.itemType == Percent <==> item.id == ExtraId(PanoramicWindows))
      && (item.itemType == Percent ==> item.unitPrice == 0.06)
      && (0 <= b ==> item.amount >= 0.0)
  {
    ExtraIdRank(e);
    ExtraIdRank(PanoramicWindows);
    if e == PanoramicWindows {
      RoundNearest(b as real * 0.06);
    }
  }

  lemma LayoutAmounts(input: CalculationInput, b: int, items: seq<PriceItem>)
    requires InLayout(input, b, items)
    ensures forall k :: 0 <= k < |items| ==> AmountMatches(items[k], b)
    ensures forall k :: 0 <= k < |items| ==>
      (items[k].itemType == Percent <==> items[k].id == ExtraId(PanoramicWindows))
    ensures forall k :: 0 <= k < |items| && items[k].itemType == Percent ==> items[k].unitPrice == 0.06
    ensures 0.0 <= input.area && 0 <= b ==> forall k :: 0 <= k < |items| ==> items[k].amount >= 0.0
  {
    var s, t := Selected(EngineeringOrder, input.engineeringOptions),
                Selected(ExtrasOrder, ExtrasOf(input));
    FoundationIdRank(input.foundationType, input.area);
    ExtraIdRank(PanoramicWindows);
    forall k | 0 <= k < |items|
      ensures AmountMatches(items[k], b)
      ensures items[k].itemType == Percent <==> items[k].id == ExtraId(PanoramicWindows)
      ensures items[k].itemType == Percent ==> items[k].unitPrice == 0.06
      ensures 0.0 <= input.area && 0 <= b ==> items[k].amount >= 0.0
    {
      if k == 0 {
      } else if k <= |s| {
        assert items[1 + (k - 1)] == EngineeringItem(s[k - 1], input.area);
        EngineeringItemFacts(s[k - 1], input.area, b);
      } else {
        var e := t[k - 1 - |s|];
        assert items[1 + |s| + (k - 1 - |s|)] == Settle(ExtraItem(e, input.area), b);
        SettledExtraFacts(e, input.area, b);
      }
    }
  }

  /** Every item carries the amount its type implies: fixed items their
      unit price, per-square-metre items unit price times quantity, and
      the percent item (only ever the panoramic windows, at 0.06) its
      rounded share of the base price. For a valid input no amount is
      negative. */
  lemma ItemAmountsConsistent(input: CalculationInput)
    ensures var r := Price(input);
      forall k :: 0 <= k < |r.items| ==> AmountMatches(r.items[k], r.basePrice)
    ensures var r := Price(input);
      forall k :: 0 <= k < |r.items| ==>
        (r.items[k].itemType == Percent <==> r.items[k].id == ExtraId(PanoramicWindows))
    ensures var r := Price(input);
      forall k :: 0 <= k < |r.items| && r.items[k].itemType == Percent ==>
        r.items[k].unitPrice == 0.06 && r.items[k].amount == Share(r.basePrice, 0.06) as real
    ensures var r := Price(input);
      ValidInput(input) ==> forall k :: 0 <= k < |r.items| ==> r.items[k].amount >= 0.0
  {
    PriceBlocks(input);
    if ValidInput(input) {
      BasePriceBounds(input);
    }
    LayoutAmounts(input, BasePrice(input), Price(input).items);
  }

  // ---------------------------------------------------------------------------
  // Base price
  // ---------------------------------------------------------------------------

  lemma MulWithin(x: real, xlo: real, xhi: real, y: real, ylo: real, yhi: real)
    requires 0.0 <= xlo <= x <= xhi && 0.0 <= ylo <= y <= yhi
    ensures xlo * ylo <= x * y <= xhi * yhi
  {
    assert (x - xlo) * ylo >= 0.0;
    assert x * (y - ylo) >= 0.0;
    assert (xhi - x) * y >= 0.0;
    assert xhi * (yhi - y) >= 0.0;
  }

  lemma ProductWithin(area: real, rate: real, fc: real, fm: real)
    requires 10.0 <= area <= 1000.0 && 75000.0 <= rate <= 95000.0
    requires 1.0 <= fc <= 1.15 && 0.85 <= fm <= 1.2
    ensures 637500.0 <= area * rate * fc * fm <= 131100000.0
  {
    MulWithin(area, 10.0, 1000.0, rate, 75000.0, 95000.0);
    MulWithin(area * rate, 750000.0, 95000000.0, fc, 1.0, 1.15);
    MulWithin(area * rate * fc, 750000.0, 109250000.0, fm, 0.85, 1.2);
  }

  /** For a valid input the base price lies between 637 500 (10 m², wood,
      one floor, shell) and 131 100 000 (1000 m², brick, three floors,
      turnkey). */
  lemma BasePriceBounds(input: CalculationInput)
    requires ValidInput(input)
    ensures 637500 <= BasePrice(input) <= 131100000
  {
    var x := input.area * BaseRatePerM2(input.wallMaterial) as real
             * FloorCoefficient(input.floors) * FinishMultiplier(input.finishLevel);
    ProductWithin(input.area, BaseRatePerM2(input.wallMaterial) as real,
                  FloorCoefficient(input.floors), FinishMultiplier(input.finishLevel));
    RoundMonotone(637500.0, x);
    RoundMonotone(x, 131100000.0);
    RoundOfInteger(637500);
    RoundOfInteger(131100000);
  }

  lemma MulMonotone(x: real, y: real, c: real)
    requires x <= y && 0.0 <= c
    ensures x * c <= y * c
  {
    assert (y - x) * c >= 0.0;
  }

  lemma ProductMonotone(a: real, b: real, rate: real, fc: real, fm: real)
    requires a <= b && 0.0 <= rate && 0.0 <= fc && 0.0 <= fm
    ensures a * rate * fc * fm <= b * rate * fc * fm
  {
    MulMonotone(a, b, rate);
    MulMonotone(a * rate, b * rate, fc);
    MulMonotone(a * rate * fc, b * rate * fc, fm);
  }

  /** A larger house (all else equal) never has a smaller base price. */
  lemma BasePriceMonotoneInArea(a: CalculationInput, b: CalculationInput)
    requires a.area <= b.area
    requires a.wallMaterial == b.wallMaterial && a.floors == b.floors && a.finishLevel == b.finishLevel
    ensures BasePrice(a) <= BasePrice(b)
  {
    var rate := BaseRatePerM2(a.wallMaterial) as real;
    var fc := FloorCoefficient(a.floors);
    var fm := FinishMultiplier(a.finishLevel);
    ProductMonotone(a.area, b.area, rate, fc, fm);
    RoundMonotone(a.area * rate * fc * fm, b.area * rate * fc * fm);
  }

  // ---------------------------------------------------------------------------
  // Sums and the total
  // ---------------------------------------------------------------------------

  lemma {:induction false} SumOfZero(items: seq<PriceItem>, f: PriceItem -> real)
    requires forall k :: 0 <= k < |items| ==> f(items[k]) == 0.0
    ensures SumOf(items, f) == 0.0
  {
    if items != [] {
      SumOfZero(items[..|items| - 1], f);
    }
  }

  lemma {:induction false} SumOfNonneg(items: seq<PriceItem>, f: PriceItem -> real)
    requires forall k :: 0 <= k < |items| ==> f(items[k]) >= 0.0
    ensures SumOf(items, f) >= 0.0
  {
    if items != [] {
      SumOfNonneg(items[..|items| - 1], f);
    }
  }

  lemma SumOfOpt(b: bool, x: PriceItem, f: PriceItem -> real)
    ensures SumOf(Opt(b, x), f) == if b then f(x) else 0.0
  {
    if b {
      assert [x][..0] == [];
    }
  }

  /** Summing over the settled items is summing the settled value of each item. */
  lemma {:induction false} SumOfSettled(items: seq<PriceItem>, b: int, f: PriceItem -> real, g: PriceItem -> real)
    requires forall i: PriceItem :: g(i) == f(Settle(i, b))
    ensures SumOf(SettleAll(items, b), f) == SumOf(items, g)
  {
    if items != [] {
      var init := items[..|items| - 1];
      assert SettleAll(items, b)[..|items| - 1] == SettleAll(init, b);
      SumOfSettled(init, b, f, g);
    }
  }

  function When(c: bool, v: real): real { if c then v else 0.0 }

  lemma ExtrasSum(extras: seq<Extra>, area: real, f: PriceItem -> real)
    ensures SumOf(ExtrasItems(extras, area), f) ==
      When(Terrace in extras, f(ExtraItem(Terrace, area)))
      + When(Fireplace in extras, f(ExtraItem(Fireplace, area)))
      + When(PanoramicWindows in extras, f(ExtraItem(PanoramicWindows, area)))
      + When(Garage in extras, f(ExtraItem(Garage, area)))
  {
    ExtrasItemsUnfold(extras, area);
    var o1, o2 := Opt(Terrace in extras, ExtraItem(Terrace, area)), Opt(Fireplace in extras, ExtraItem(Fireplace, area));
    var o3, o4 := Opt(PanoramicWindows in extras, ExtraItem(PanoramicWindows, area)), Opt(Garage in extras, ExtraItem(Garage, area));
    SumOfAppend(o1 + o2 + o3, o4, f);
    SumOfAppend(o1 + o2, o3, f);
    SumOfAppend(o1, o2, f);
    SumOfOpt(Terrace in extras, ExtraItem(Terrace, area), f);
    SumOfOpt(Fireplace in extras, ExtraItem(Fireplace, area), f);
    SumOfOpt(PanoramicWindows in extras, ExtraItem(PanoramicWindows, area), f);
    SumOfOpt(Garage in extras, ExtraItem(Garage, area), f);
  }

  /** The foundation and engineering items contribute nothing to a sum of
      percent-only values. */
  lemma HeadSumZero(input: CalculationInput, f: PriceItem -> real)
    requires forall i: PriceItem :: i.itemType != Percent ==> f(i) == 0.0
    ensures SumOf([FoundationCost(input.foundationType, input.area)]
                  + EngineeringItems(input.engineeringOptions, input.area), f) == 0.0
  {
    var e := EngineeringItems(input.engineeringOptions, input.area);
    var head := [FoundationCost(input.foundationType, input.area)] + e;
    EngineeringItemsAt(input.engineeringOptions, input.area);
    forall k | 0 <= k < |head| ensures f(head[k]) == 0.0 {
      if k > 0 {
        assert head[k] == e[k - 1];
      }
    }
    SumOfZero(head, f);
  }

  /** The percent fractions of the collected items add up to 0.06 when the
      panoramic windows are chosen and to 0 otherwise. */
  lemma CollectedPercentRate(input: CalculationInput)
    ensures PercentRateSum(CollectedItems(input)) == When(PanoramicWindows in ExtrasOf(input), 0.06)
  {
    var head := [FoundationCost(input.foundationType, input.area)]
      + EngineeringItems(input.engineeringOptions, input.area);
    SumOfAppend(head, ExtrasItems(ExtrasOf(input), input.area), PercentRateOf);
    HeadSumZero(input, PercentRateOf);
    ExtrasSum(ExtrasOf(input), input.area, PercentRateOf);
  }

  /** After the percent pass the percent items' amounts add up to the
      panoramic share of the base price, or to 0 without panoramic windows. */
  lemma SettledPercentTotal(input: CalculationInput, b: int)
    ensures PercentItemsTotal(SettledItems(input, b)) ==
      When(PanoramicWindows in ExtrasOf(input), Share(b, 0.06) as real)
  {
    SettledLayout(input, b);
    var head := [FoundationCost(input.foundationType, input.area)]
      + EngineeringItems(input.engineeringOptions, input.area);
    var extras := ExtrasItems(ExtrasOf(input), input.area);
    SumOfAppend(head, SettleAll(extras, b), PercentAmountOf);
    HeadSumZero(input, PercentAmountOf);
    var g := (i: PriceItem) => PercentAmountOf(Settle(i, b));
    SumOfSettled(extras, b, PercentAmountOf, g);
    ExtrasSum(ExtrasOf(input), input.area, g);
  }

  lemma TotalCountsPercentTwice(input: CalculationInput, b: int, p: real)
    ensures var items := SettledItems(input, b);
      Total(b, CollectedItems(input), p)
      == WithPromo(b as real + 2.0 * PercentItemsTotal(items) + OtherItemsTotal(items), p)
  {
    var items := SettledItems(input, b);
    CollectedPercentRate(input);
    SettledPercentTotal(input, b);
    AmountTotalSplits(items);
    var pa := Share(b, PercentRateSum(CollectedItems(input)));
    if PanoramicWindows !in ExtrasOf(input) {
      RoundOfInteger(0);
    }
    assert pa as real == PercentItemsTotal(items);
    assert Subtotal(b, pa, AmountTotal(items))
      == b as real + 2.0 * PercentItemsTotal(items) + OtherItemsTotal(items);
  }

  /** The total counts the percent surcharge twice: once as the surcharge
      on the base price and once more through the percent item's own
      amount. Only the panoramic windows are percent-typed, so the doubled
      term is twice their rounded 6 % share, or nothing without them. */
  lemma PercentSurchargeCountedTwice(input: CalculationInput)
    ensures var r := Price(input);
      r.totalPrice == WithPromo(r.basePrice as real + 2.0 * PercentItemsTotal(r.items)
                                + OtherItemsTotal(r.items), Promo(input))
    ensures var r := Price(input);
      PercentItemsTotal(r.items) == When(PanoramicWindows in ExtrasOf(input), Share(r.basePrice, 0.06) as real)
  {
    TotalCountsPercentTwice(input, BasePrice(input), Promo(input));
    SettledPercentTotal(input, BasePrice(input));
  }

  lemma PromoNotBelow(b: int, x: real, p: real)
    requires 0 <= b && b as real <= x && 1.0 <= p
    ensures WithPromo(x, p) >= b
  {
    MulMonotone(1.0, p, x);
    RoundMonotone(b as real, x * p);
    RoundOfInteger(b);
  }

  lemma LayoutOtherNonneg(input: CalculationInput, b: int, items: seq<PriceItem>)
    requires InLayout(input, b, items) && 0.0 <= input.area && 0 <= b
    ensures OtherItemsTotal(items) >= 0.0
  {
    LayoutAmounts(input, b, items);
    forall k | 0 <= k < |items| ensures OtherAmountOf(items[k]) >= 0.0 { }
    SumOfNonneg(items, OtherAmountOf);
  }

  lemma ShareNonneg(b: int, fraction: real)
    requires 0 <= b && 0.0 <= fraction
    ensures Share(b, fraction) >= 0
  {
    MulWithin(b as real, 0.0, b as real, fraction, 0.0, fraction);
    RoundNearest(b as real * fraction);
  }

  lemma SettledPercentNonneg(input: CalculationInput, b: int)
    requires 0 <= b
    ensures PercentItemsTotal(SettledItems(input, b)) >= 0.0
  {
    SettledPercentTotal(input, b);
    ShareNonneg(b, 0.06);
  }

  lemma SettledOtherNonneg(input: CalculationInput, b: int)
    requires 0.0 <= input.area && 0 <= b
    ensures OtherItemsTotal(SettledItems(input, b)) >= 0.0
  {
    SettledBlocks(input, b);
    LayoutOtherNonneg(input, b, SettledItems(input, b));
  }

  lemma SettledTotalsNonneg(input: CalculationInput, b: int)
    requires 0.0 <= input.area && 0 <= b
    ensures PercentItemsTotal(SettledItems(input, b)) >= 0.0
    ensures OtherItemsTotal(SettledItems(input, b)) >= 0.0
  {
    SettledPercentNonneg(input, b);
    SettledOtherNonneg(input, b);
  }

  lemma TotalAtLeast(input: CalculationInput, b: int, p: real)
    requires 0.0 <= input.area && 0 <= b && 1.0 <= p
    ensures Total(b, CollectedItems(input), p) >= b
  {
    var items := SettledItems(input, b);
    TotalCountsPercentTwice(input, b, p);
    SettledTotalsNonneg(input, b);
    PromoNotBelow(b, b as real + 2.0 * PercentItemsTotal(items) + OtherItemsTotal(items), p);
  }

  /** Without a discount (promo at least 1) the total is never below the
      base price. */
  lemma TotalAtLeastBase(input: CalculationInput)
    requires ValidInput(input) && Promo(input) >= 1.0
    ensures Price(input).totalPrice >= Price(input).basePrice
  {
    BasePriceBounds(input);
    TotalAtLeast(input, BasePrice(input), Promo(input));
  }

  // ---------------------------------------------------------------------------
  // Duration
  // ---------------------------------------------------------------------------

  lemma WeeksTotalFive(stages: seq<StageEstimate>)
    requires |stages| == 5
    ensures WeeksTotal(stages)
      == stages[0].weeks + stages[1].weeks + stages[2].weeks + stages[3].weeks + stages[4].weeks
  {
    assert stages[..4][..3] == stages[..3] && stages[..3][..2] == stages[..2];
    assert stages[..2][..1] == stages[..1] && stages[..1][..0] == [];
    assert WeeksTotal(stages[..1]) == stages[0].weeks;
    assert WeeksTotal(stages[..2]) == WeeksTotal(stages[..1]) + stages[1].weeks;
    assert WeeksTotal(stages[..3]) == WeeksTotal(stages[..2]) + stages[2].weeks;
    assert WeeksTotal(stages[..4]) == WeeksTotal(stages[..3]) + stages[3].weeks;
  }

  /** The duration is the sum of the five stages' weeks and so lies in
      [6, 36]; the result always carries pricing version 2025-10-01. */
  lemma DurationWithinBounds(input: CalculationInput)
    ensures var r := Price(input);
      && |r.stages| == 5
      && r.durationWeeks == r.stages[0].weeks + r.stages[1].weeks + r.stages[2].weeks
                            + r.stages[3].weeks + r.stages[4].weeks
      && 6 <= r.durationWeeks <= 36
      && r.pricingVersion == "2025-10-01"
  {
    WeeksTotalFive(EstimateStages(input, BasePrice(input)));
  }

  // ---------------------------------------------------------------------------
  // Worked examples
  // ---------------------------------------------------------------------------

  /** 100 m² wooden house, one floor, slab, basic finish, nothing else. */
  const PlainHouse := CalculationInput(None, 100.0, 1, Wood, Slab, Basic, [], Some([]), Some(1.0))

  lemma PlainHouseBase()
    ensures BasePrice(PlainHouse) == 7500000
  {
    assert PlainHouse.area * BaseRatePerM2(Wood) as real * FloorCoefficient(1) * FinishMultiplier(Basic) == 7500000.0;
    RoundOfInteger(7500000);
  }

  lemma PlainHouseItems(b: int)
    ensures SettledItems(PlainHouse, b) == [FoundationCost(Slab, 100.0)]
  {
    EngineeringSelectedUnfold([]);
    ExtrasSelectedUnfold([]);
    assert CollectedItems(PlainHouse) == [FoundationCost(Slab, 100.0)];
  }

  lemma PlainHouseSum()
    ensures Total(7500000, [FoundationCost(Slab, 100.0)], 1.0) == 9300000
  {
    var items := [FoundationCost(Slab, 100.0)];
    assert PercentRateSum(items) == 0.0;
    RoundOfInteger(0);
    assert SettleAll(items, 7500000) == items;
    assert AmountTotal(items) == 1800000.0;
    RoundOfInteger(9300000);
  }

  /** The plain house costs its base price plus the foundation:
      7 500 000 + 1 800 000. */
  lemma PlainHouseTotal()
    ensures Price(PlainHouse).basePrice == 7500000
    ensures Price(PlainHouse).items == [FoundationCost(Slab, 100.0)]
    ensures Price(PlainHouse).totalPrice == 9300000
  {
    PlainHouseBase();
    PlainHouseItems(7500000);
    assert CollectedItems(PlainHouse) == [FoundationCost(Slab, 100.0)] by {
      EngineeringSelectedUnfold([]);
      ExtrasSelectedUnfold([]);
    }
    PlainHouseSum();
  }

  /** The plain house with panoramic windows. */
  const PanoramicHouse := PlainHouse.(extras := Some([PanoramicWindows]))

  lemma PanoramicHouseItems()
    ensures CollectedItems(PanoramicHouse) == [FoundationCost(Slab, 100.0), ExtraItem(PanoramicWindows, 100.0)]
  {
    EngineeringItemsUnfold([], 100.0);
    ExtrasItemsUnfold([PanoramicWindows], 100.0);
    assert Terrace !in [PanoramicWindows] && Fireplace !in [PanoramicWindows] && Garage !in [PanoramicWindows];
  }

  lemma PanoramicHouseSum()
    ensures Total(7500000, [FoundationCost(Slab, 100.0), ExtraItem(PanoramicWindows, 100.0)], 1.0) == 10200000
  {
    var items := [FoundationCost(Slab, 100.0), ExtraItem(PanoramicWindows, 100.0)];
    assert items[..1] == [FoundationCost(Slab, 100.0)];
    assert SumOf(items[..1], PercentRateOf) == 0.0 by {
      assert items[..1][..0] == [];
    }
    assert PercentRateOf(items[1]) == 0.06;
    assert PercentRateSum(items) == 0.06;
    assert Share(7500000, 0.06) == 450000 by {
      assert 7500000.0 * 0.06 == 450000.0;
      RoundOfInteger(450000);
    }
    var settled := SettleAll(items, 7500000);
    assert settled[..1] == [FoundationCost(Slab, 100.0)];
    assert SumOf(settled[..1], AmountOf) == 1800000.0 by {
      assert settled[..1][..0] == [];
    }
    assert settled[1].amount == 450000.0;
    assert AmountTotal(settled) == 2250000.0;
    RoundOfInteger(10200000);
  }

  /** With panoramic windows the 6 % surcharge (450 000) enters the total
      twice: 7 500 000 + 2 * 450 000 + 1 800 000, not 9 750 000. */
  lemma PanoramicHouseTotal()
    ensures Price(PanoramicHouse).basePrice == 7500000
    ensures Price(PanoramicHouse).totalPrice == 10200000
  {
    assert BasePrice(PanoramicHouse) == BasePrice(PlainHouse);
    PlainHouseBase();
    PanoramicHouseItems();
    PanoramicHouseSum();
  }
}

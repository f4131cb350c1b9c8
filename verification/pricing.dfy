/**
 * The pricing engine of the reservation form: from the guest count, the food
 * and breakfast per-person prices, the two selection maps, the checked
 * services and the tip and deposit percentages to an itemised breakdown.
 */
module Pricing {
  import opened Wrappers
  import opened Catalog
  import opened Selections

  datatype Taxes = Taxes(foodStateReducedTax: real, foodCityTax: real, alcoholStateTax: real, totalTaxes: real)

  datatype Tip = Tip(percentage: real, amount: real)

  /** The object `calculatePrice` returns. */
  datatype PriceBreakdown = PriceBreakdown(
    roomCost: real,
    foodCost: real,
    breakfastCost: real,
    drinkCost: real,
    entremesesCost: real,
    additionalCost: real,
    taxes: Taxes,
    tip: Tip,
    subtotalBeforeTaxes: real,
    totalCost: real,
    depositAmount: real,
    depositPercentage: real,
    guestCount: int,
    eventDuration: int)

  /**
   * The form values `calculatePrice` reads. A numeric input that is empty,
   * zero or not a number reads as 0; `depositField` is None when the deposit
   * selector is missing from the page.
   */
  datatype PriceInputs = PriceInputs(
    guestCountManual: int,
    guestCountSlider: int,
    foodPrice: real,
    breakfastPrice: real,
    eventDurationField: int,
    services: set<Service>,
    tipPercentage: real,
    depositField: Option<real>)

  const FoodStateReducedRate: real := 0.06
  const FoodCityRate: real := 0.01
  const AlcoholStateRate: real := 0.105

  /** `parseInt(manual) || parseInt(slider)`: the manual input wins unless it is falsy. */
  function PricingGuestCount(manual: int, slider: int): (g: int)
    ensures manual != 0 ==> g == manual
    ensures manual == 0 ==> g == slider
  {
    if manual != 0 then manual else slider
  }

  /** `parseInt(eventDuration) || 1`. */
  function EventDuration(field: int): (d: int)
    ensures d != 0
    ensures field != 0 ==> d == field
    ensures field == 0 ==> d == 1
  {
    if field != 0 then field else 1
  }

  /** The deposit percentage: the selector's value, or 20 when there is no selector. */
  function DepositPercentage(field: Option<real>): (p: real)
    ensures field.Some? ==> p == field.value
    ensures field.None? ==> p == 20.0
  {
    match field
    case Some(v) => v
    case None => 20.0
  }

  /** True for the per-person mimosa entry, which `calculatePrice` prices before any lookup. */
  predicate IsMimosa(e: Entry)
  {
    e.key == MimosaKey && e.value == Flag(true)
  }

  /** What one beverage entry adds to `drinkCost`, looked up in `beverages`. */
  function BeverageLineCost(e: Entry, guests: int, beverages: seq<BeverageItem>): real
  {
    if IsMimosa(e) then MimosaPerPerson * guests as real
    else match FindBeverage(beverages, e.key)
      case Some(item) => if ToNumber(e.value) > 0 then item.price * ToNumber(e.value) as real else 0.0
      case None => 0.0
  }

  /** What one beverage entry adds to `alcoholicQty`. */
  function BeverageAlcoholUnits(e: Entry, beverages: seq<BeverageItem>): int
  {
    if IsMimosa(e) then 0
    else match FindBeverage(beverages, e.key)
      case Some(item) => if ToNumber(e.value) > 0 && item.alcohol then ToNumber(e.value) else 0
      case None => 0
  }

  /** True when the entry adds alcohol-flagged units. */
  predicate IsAlcoholicUnit(e: Entry, beverages: seq<BeverageItem>)
  {
    && !IsMimosa(e)
    && FindBeverage(beverages, e.key).Some?
    && FindBeverage(beverages, e.key).value.alcohol
    && ToNumber(e.value) > 0
  }

  /** `drinkCost` after the loop over the beverage entries. */
  function DrinkCost(s: Selection, guests: int, beverages: seq<BeverageItem>): real
    decreases |s|
  {
    if s == [] then 0.0 else DrinkCost(s[..|s| - 1], guests, beverages) + BeverageLineCost(s[|s| - 1], guests, beverages)
  }

  /** `alcoholicQty` after the loop over the beverage entries. */
  function AlcoholicQty(s: Selection, beverages: seq<BeverageItem>): int
    decreases |s|
  {
    if s == [] then 0 else AlcoholicQty(s[..|s| - 1], beverages) + BeverageAlcoholUnits(s[|s| - 1], beverages)
  }

  /** What one entremeses entry adds to `entremesesCost`. */
  function EntremesLineCost(e: Entry, guests: int, entremeses: seq<EntremesItem>): real
  {
    if e.key == AsopaoKey && e.value == Flag(true) then AsopaoPerPerson * guests as real
    else if e.key == CevicheKey && e.value == Flag(true) then CevichePerPerson * guests as real
    else match FindEntremes(entremeses, e.key)
      case Some(item) => if ToNumber(e.value) > 0 then item.price * ToNumber(e.value) as real else 0.0
      case None => 0.0
  }

  /** `entremesesCost` after the loop over the entremeses entries. */
  function EntremesesCost(s: Selection, guests: int, entremeses: seq<EntremesItem>): real
    decreases |s|
  {
    if s == [] then 0.0 else EntremesesCost(s[..|s| - 1], guests, entremeses) + EntremesLineCost(s[|s| - 1], guests, entremeses)
  }

  /** Sum of the prices of the checked services among `list`. */
  function ServicesCost(list: seq<Service>, checked: set<Service>): real
    decreases |list|
  {
    if list == [] then 0.0
    else
      var last := list[|list| - 1];
      ServicesCost(list[..|list| - 1], checked) + (if last in checked then ServicePrice(last) else 0.0)
  }

  /** `additionalCost`: the loop over the six service checkboxes. */
  function AdditionalCost(checked: set<Service>): real
  {
    ServicesCost(AllServices(), checked)
  }

  /** The breakdown once the four accumulated sums are known. */
  function Assemble(inp: PriceInputs, drinkCost: real, alcoholicQty: int, entremesesCost: real, additionalCost: real): PriceBreakdown
  {
    var guests := PricingGuestCount(inp.guestCountManual, inp.guestCountSlider);
    var roomCost := 0.0;
    var foodCost := inp.foodPrice * guests as real;
    var breakfastCost := inp.breakfastPrice * guests as real;
    var totalFoodCost := foodCost + breakfastCost + entremesesCost;
    var foodStateReducedTax := totalFoodCost * FoodStateReducedRate;
    var foodCityTax := totalFoodCost * FoodCityRate;
    var alcoholStateTax := if alcoholicQty > 0 then drinkCost * AlcoholStateRate else 0.0;
    var totalTaxes := foodStateReducedTax + foodCityTax + alcoholStateTax;
    var subtotal := roomCost + foodCost + breakfastCost + drinkCost + entremesesCost + additionalCost;
    var tipAmount := subtotal * (inp.tipPercentage / 100.0);
    var totalCost := subtotal + totalTaxes + tipAmount;
    var depositPercentage := DepositPercentage(inp.depositField);
    PriceBreakdown(
      roomCost, foodCost, breakfastCost, drinkCost, entremesesCost, additionalCost,
      Taxes(foodStateReducedTax, foodCityTax, alcoholStateTax, totalTaxes),
      Tip(inp.tipPercentage, tipAmount),
      subtotal, totalCost,
      totalCost * (depositPercentage / 100.0), depositPercentage,
      guests, EventDuration(inp.eventDurationField))
  }

  /** The specification of `calculatePrice`. */
  function Breakdown(inp: PriceInputs, bev: Selection, entr: Selection): PriceBreakdown
  {
    var guests := PricingGuestCount(inp.guestCountManual, inp.guestCountSlider);
    Assemble(inp, DrinkCost(bev, guests, BeverageItems()), AlcoholicQty(bev, BeverageItems()),
             EntremesesCost(entr, guests, EntremesesItems()), AdditionalCost(inp.services))
  }

  // ----- Properties of the breakdown -----

  /**
   * How the lines of a breakdown compose: the subtotal is the sum of the six
   * cost lines (the room costing nothing), the food taxes are 6% and 1% of
   * food + breakfast + entremeses, total taxes are the sum of the three taxes,
   * the tip is taken on the pre-tax subtotal, the total is subtotal + taxes +
   * tip, and the deposit is the deposit percentage of the total.
   */
  predicate LinesCompose(r: PriceBreakdown)
  {
    && r.roomCost == 0.0
    && r.subtotalBeforeTaxes == r.roomCost + r.foodCost + r.breakfastCost + r.drinkCost + r.entremesesCost + r.additionalCost
    && r.taxes.foodStateReducedTax == 0.06 * (r.foodCost + r.breakfastCost + r.entremesesCost)
    && r.taxes.foodCityTax == 0.01 * (r.foodCost + r.breakfastCost + r.entremesesCost)
    && r.taxes.totalTaxes == r.taxes.foodStateReducedTax + r.taxes.foodCityTax + r.taxes.alcoholStateTax
    && r.tip.amount == r.subtotalBeforeTaxes * r.tip.percentage / 100.0
    && r.totalCost == r.subtotalBeforeTaxes + r.taxes.totalTaxes + r.tip.amount
    && r.depositAmount == r.totalCost * r.depositPercentage / 100.0
  }

  /** `Assemble` composes its lines as the source does, for any four accumulated sums. */
  lemma AssembleDecomposition(inp: PriceInputs, drinkCost: real, alcoholicQty: int, entremesesCost: real, additionalCost: real)
    ensures var r := Assemble(inp, drinkCost, alcoholicQty, entremesesCost, additionalCost);
      LinesCompose(r) && r.tip.percentage == inp.tipPercentage
  {
  }

  /** Every breakdown `calculatePrice` returns composes its lines as the source does. */
  lemma TotalDecomposition(inp: PriceInputs, bev: Selection, entr: Selection)
    ensures var r := Breakdown(inp, bev, entr);
      LinesCompose(r) && r.tip.percentage == inp.tipPercentage
  {
    var guests := PricingGuestCount(inp.guestCountManual, inp.guestCountSlider);
    AssembleDecomposition(inp, DrinkCost(bev, guests, BeverageItems()), AlcoholicQty(bev, BeverageItems()),
                          EntremesesCost(entr, guests, EntremesesItems()), AdditionalCost(inp.services));
  }

  /** The closed form of a total whose lines compose as the source's do. */
  lemma ClosedFormOfDecomposed(r: PriceBreakdown, tipPercentage: real)
    requires LinesCompose(r) && r.tip.percentage == tipPercentage
    ensures r.totalCost == r.subtotalBeforeTaxes * (1.0 + tipPercentage / 100.0)
                           + 0.07 * (r.foodCost + r.breakfastCost + r.entremesesCost)
                           + r.taxes.alcoholStateTax
  {
    var sub := r.subtotalBeforeTaxes;
    assert sub * (1.0 + tipPercentage / 100.0) == sub + sub * tipPercentage / 100.0;
  }

  /**
   * Written out, the total is the pre-tax subtotal grown by the tip rate, plus
   * 7% of the food base (food, breakfast, entremeses), plus the alcohol tax.
   */
  lemma TotalClosedForm(inp: PriceInputs, bev: Selection, entr: Selection)
    ensures var r := Breakdown(inp, bev, entr);
      r.totalCost == r.subtotalBeforeTaxes * (1.0 + inp.tipPercentage / 100.0)
                     + 0.07 * (r.foodCost + r.breakfastCost + r.entremesesCost)
                     + r.taxes.alcoholStateTax
  {
    TotalDecomposition(inp, bev, entr);
    ClosedFormOfDecomposed(Breakdown(inp, bev, entr), inp.tipPercentage);
  }

  /** Neither taxes in `Assemble` reads the drink sums or the services sum. */
  lemma AssembleFoodTaxesIgnoreDrinks(inp: PriceInputs, services': set<Service>, d: real, a: int, e: real, c: real,
                                      d': real, a': int, c': real)
    ensures var r := Assemble(inp, d, a, e, c);
      var r' := Assemble(inp.(services := services'), d', a', e, c');
      r'.taxes.foodStateReducedTax == r.taxes.foodStateReducedTax && r'.taxes.foodCityTax == r.taxes.foodCityTax
  {
  }

  /**
   * The drink line and the services never enter the food-tax base: changing
   * the beverages or the checked services leaves both food taxes unchanged.
   */
  lemma FoodTaxIgnoresDrinksAndServices(inp: PriceInputs, bev: Selection, entr: Selection, bev': Selection, services': set<Service>)
    ensures var r := Breakdown(inp, bev, entr);
      var r' := Breakdown(inp.(services := services'), bev', entr);
      r'.taxes.foodStateReducedTax == r.taxes.foodStateReducedTax && r'.taxes.foodCityTax == r.taxes.foodCityTax
  {
    var guests := PricingGuestCount(inp.guestCountManual, inp.guestCountSlider);
    AssembleFoodTaxesIgnoreDrinks(inp, services',
      DrinkCost(bev, guests, BeverageItems()), AlcoholicQty(bev, BeverageItems()),
      EntremesesCost(entr, guests, EntremesesItems()), AdditionalCost(inp.services),
      DrinkCost(bev', guests, BeverageItems()), AlcoholicQty(bev', BeverageItems()), AdditionalCost(services'));
  }

  /** `alcoholicQty` never goes negative: only positive quantities are added. */
  lemma {:induction false} AlcoholicQtyNonNegative(s: Selection, beverages: seq<BeverageItem>)
    ensures AlcoholicQty(s, beverages) >= 0
    decreases |s|
  {
    if s != [] {
      AlcoholicQtyNonNegative(s[..|s| - 1], beverages);
    }
  }

  /** `alcoholicQty` is positive exactly when some entry adds alcohol-flagged units. */
  lemma {:induction false} AlcoholicQtyPositiveIff(s: Selection, beverages: seq<BeverageItem>)
    ensures AlcoholicQty(s, beverages) > 0 <==> exists i :: 0 <= i < |s| && IsAlcoholicUnit(s[i], beverages)
    decreases |s|
  {
    if s != [] {
      var init := s[..|s| - 1];
      AlcoholicQtyPositiveIff(init, beverages);
      AlcoholicQtyNonNegative(init, beverages);
      if exists i :: 0 <= i < |init| && IsAlcoholicUnit(init[i], beverages) {
        var i :| 0 <= i < |init| && IsAlcoholicUnit(init[i], beverages);
        assert s[i] == init[i];
      }
      if exists i :: 0 <= i < |s| && IsAlcoholicUnit(s[i], beverages) {
        var i :| 0 <= i < |s| && IsAlcoholicUnit(s[i], beverages);
        if i < |init| {
          assert init[i] == s[i];
        }
      }
    }
  }

  /**
   * The alcohol state tax is 10.5% of the WHOLE drink line (non-alcoholic
   * items included) when some alcohol-flagged unit is selected, and exactly
   * zero otherwise.
   */
  lemma AlcoholTaxGate(inp: PriceInputs, bev: Selection, entr: Selection)
    ensures var r := Breakdown(inp, bev, entr);
      (exists i :: 0 <= i < |bev| && IsAlcoholicUnit(bev[i], BeverageItems())) ==> r.taxes.alcoholStateTax == 0.105 * r.drinkCost
    ensures var r := Breakdown(inp, bev, entr);
      (forall i :: 0 <= i < |bev| ==> !IsAlcoholicUnit(bev[i], BeverageItems())) ==> r.taxes.alcoholStateTax == 0.0
  {
    AlcoholicQtyPositiveIff(bev, BeverageItems());
  }

  /**
   * What one more beverage entry does to the two running sums: mimosa adds
   * 3.95 per guest and no alcohol; an entry missing from the catalog or with
   * no positive quantity adds nothing; any other adds price times quantity,
   * and its quantity to the alcohol count when the item is alcoholic.
   */
  lemma DrinkCostExtend(s: Selection, e: Entry, guests: int, beverages: seq<BeverageItem>)
    ensures IsMimosa(e) ==>
      && DrinkCost(s + [e], guests, beverages) == DrinkCost(s, guests, beverages) + 3.95 * guests as real
      && AlcoholicQty(s + [e], beverages) == AlcoholicQty(s, beverages)
    ensures !IsMimosa(e) && (FindBeverage(beverages, e.key).None? || ToNumber(e.value) <= 0) ==>
      && DrinkCost(s + [e], guests, beverages) == DrinkCost(s, guests, beverages)
      && AlcoholicQty(s + [e], beverages) == AlcoholicQty(s, beverages)
    ensures !IsMimosa(e) && FindBeverage(beverages, e.key).Some? && ToNumber(e.value) > 0 ==>
      var item := FindBeverage(beverages, e.key).value;
      && DrinkCost(s + [e], guests, beverages) == DrinkCost(s, guests, beverages) + item.price * ToNumber(e.value) as real
      && AlcoholicQty(s + [e], beverages) == AlcoholicQty(s, beverages) + (if item.alcohol then ToNumber(e.value) else 0)
  {
    assert (s + [e])[..|s|] == s;
  }

  /**
   * What one more entremeses entry adds: 3.00 per guest for asopao, 3.95 per
   * guest for ceviche, price times quantity for a catalog item with a positive
   * quantity, and nothing otherwise.
   */
  lemma EntremesesCostExtend(s: Selection, e: Entry, guests: int, entremeses: seq<EntremesItem>)
    ensures e == Entry(AsopaoKey, Flag(true)) ==>
      EntremesesCost(s + [e], guests, entremeses) == EntremesesCost(s, guests, entremeses) + 3.00 * guests as real
    ensures e == Entry(CevicheKey, Flag(true)) ==>
      EntremesesCost(s + [e], guests, entremeses) == EntremesesCost(s, guests, entremeses) + 3.95 * guests as real
    ensures e != Entry(AsopaoKey, Flag(true)) && e != Entry(CevicheKey, Flag(true)) ==>
      EntremesesCost(s + [e], guests, entremeses) == EntremesesCost(s, guests, entremeses)
        + (match FindEntremes(entremeses, e.key)
           case Some(item) => if ToNumber(e.value) > 0 then item.price * ToNumber(e.value) as real else 0.0
           case None => 0.0)
  {
    assert (s + [e])[..|s|] == s;
  }

  /** The drink line of a concatenation is the sum of the drink lines. */
  lemma {:induction false} DrinkCostAppend(a: Selection, b: Selection, guests: int, beverages: seq<BeverageItem>)
    ensures DrinkCost(a + b, guests, beverages) == DrinkCost(a, guests, beverages) + DrinkCost(b, guests, beverages)
    decreases |b|
  {
    if b == [] {
      assert a + b == a;
    } else {
      var b' := b[..|b| - 1];
      DrinkCostAppend(a, b', guests, beverages);
      assert (a + b)[..|a + b| - 1] == a + b';
    }
  }

  /** Removing the same entry from two equal multisets of entries leaves equal multisets. */
  lemma MultisetCancel(rest: Selection, x: Entry, pre: Selection, post: Selection)
    requires multiset(rest + [x]) == multiset(pre + [x] + post)
    ensures multiset(rest) == multiset(pre + post)
  {
    var l, r := multiset(rest + [x]), multiset(pre + [x] + post);
    assert l == multiset(rest) + multiset{x};
    assert r == multiset(pre + post) + multiset{x};
    forall y ensures multiset(rest)[y] == multiset(pre + post)[y] {
      assert l[y] == r[y];
    }
  }

  /** The drink line does not depend on the order of the selection's entries. */
  lemma {:induction false} DrinkCostPermutation(a: Selection, b: Selection, guests: int, beverages: seq<BeverageItem>)
    requires multiset(a) == multiset(b)
    ensures DrinkCost(a, guests, beverages) == DrinkCost(b, guests, beverages)
    decreases |a|
  {
    if a != [] {
      var x := a[|a| - 1];
      var a' := a[..|a| - 1];
      assert a == a' + [x];
      assert x in multiset(b);
      var j :| 0 <= j < |b| && b[j] == x;
      var pre, post := b[..j], b[j + 1..];
      assert b == pre + [x] + post;
      var b' := pre + post;
      MultisetCancel(a', x, pre, post);
      DrinkCostPermutation(a', b', guests, beverages);
      DrinkCostAppend(pre + [x], post, guests, beverages);
      DrinkCostAppend(pre, [x], guests, beverages);
      DrinkCostAppend(pre, post, guests, beverages);
      assert [x][..0] == [];
    }
  }

  /** Every beverage line is non-negative when the guest count and the list prices are. */
  lemma BeverageLineNonNegative(e: Entry, guests: int, beverages: seq<BeverageItem>)
    requires guests >= 0 && BeveragePricesNonNegative(beverages)
    ensures BeverageLineCost(e, guests, beverages) >= 0.0
  {
    if !IsMimosa(e) {
      var found := FindBeverage(beverages, e.key);
      if found.Some? {
        var i :| 0 <= i < |beverages| && beverages[i] == found.value;
      }
    }
  }

  /** The drink line is non-negative when the guest count and the list prices are. */
  lemma {:induction false} DrinkCostNonNegative(s: Selection, guests: int, beverages: seq<BeverageItem>)
    requires guests >= 0 && BeveragePricesNonNegative(beverages)
    ensures DrinkCost(s, guests, beverages) >= 0.0
    decreases |s|
  {
    if s != [] {
      DrinkCostNonNegative(s[..|s| - 1], guests, beverages);
      BeverageLineNonNegative(s[|s| - 1], guests, beverages);
    }
  }

  /** The entremeses line is non-negative when the guest count and the list prices are. */
  lemma {:induction false} EntremesesCostNonNegative(s: Selection, guests: int, entremeses: seq<EntremesItem>)
    requires guests >= 0 && EntremesesPricesNonNegative(entremeses)
    ensures EntremesesCost(s, guests, entremeses) >= 0.0
    decreases |s|
  {
    if s != [] {
      EntremesesCostNonNegative(s[..|s| - 1], guests, entremeses);
      var e := s[|s| - 1];
      var found := FindEntremes(entremeses, e.key);
      if found.Some? {
        var i :| 0 <= i < |entremeses| && entremeses[i] == found.value;
      }
    }
  }

  /** The entremeses line of a concatenation is the sum of the entremeses lines. */
  lemma {:induction false} EntremesesCostAppend(a: Selection, b: Selection, guests: int, entremeses: seq<EntremesItem>)
    ensures EntremesesCost(a + b, guests, entremeses) == EntremesesCost(a, guests, entremeses) + EntremesesCost(b, guests, entremeses)
    decreases |b|
  {
    if b == [] {
      assert a + b == a;
    } else {
      var b' := b[..|b| - 1];
      EntremesesCostAppend(a, b', guests, entremeses);
      assert (a + b)[..|a + b| - 1] == a + b';
    }
  }

  /**
   * The services line is 150 for decorations, 100 for waitstaff and 50 for
   * valet when checked; table cloths, chairs and tables add nothing, and
   * unchecked services add nothing.
   */
  lemma AdditionalCostClosedForm(checked: set<Service>)
    ensures AdditionalCost(checked) ==
      (if Decorations in checked then 150.0 else 0.0)
      + (if Waitstaff in checked then 100.0 else 0.0)
      + (if Valet in checked then 50.0 else 0.0)
    ensures 0.0 <= AdditionalCost(checked) <= 300.0
  {
    var p6 := AllServices();
    var p5 := [AudioVisual, Sillas, Mesas, Decorations, Waitstaff];
    var p4 := [AudioVisual, Sillas, Mesas, Decorations];
    var p3 := [AudioVisual, Sillas, Mesas];
    var p2 := [AudioVisual, Sillas];
    var p1 := [AudioVisual];
    assert p6[..5] == p5 && p5[..4] == p4 && p4[..3] == p3 && p3[..2] == p2 && p2[..1] == p1 && p1[..0] == [];
    assert ServicesCost(p1, checked) == 0.0;
    assert ServicesCost(p2, checked) == 0.0;
    assert ServicesCost(p3, checked) == 0.0;
    assert ServicesCost(p4, checked) == (if Decorations in checked then 150.0 else 0.0);
    assert ServicesCost(p5, checked) == ServicesCost(p4, checked) + (if Waitstaff in checked then 100.0 else 0.0);
  }

  lemma ProductNonNegative(a: real, b: real)
    requires a >= 0.0 && b >= 0.0
    ensures a * b >= 0.0
  {
  }

  /** True when every money field of a breakdown is non-negative. */
  predicate AllMoneyNonNegative(r: PriceBreakdown)
  {
    && r.roomCost >= 0.0 && r.foodCost >= 0.0 && r.breakfastCost >= 0.0 && r.drinkCost >= 0.0
    && r.entremesesCost >= 0.0 && r.additionalCost >= 0.0
    && r.taxes.foodStateReducedTax >= 0.0 && r.taxes.foodCityTax >= 0.0
    && r.taxes.alcoholStateTax >= 0.0 && r.taxes.totalTaxes >= 0.0
    && r.tip.amount >= 0.0 && r.subtotalBeforeTaxes >= 0.0
    && r.totalCost >= 0.0 && r.depositAmount >= 0.0
  }

  /** Non-negative sums, prices and percentages assemble into a non-negative breakdown. */
  lemma AssembleNonNegative(inp: PriceInputs, drinkCost: real, alcoholicQty: int, entremesesCost: real, additionalCost: real)
    requires PricingGuestCount(inp.guestCountManual, inp.guestCountSlider) >= 0
    requires inp.foodPrice >= 0.0 && inp.breakfastPrice >= 0.0
    requires inp.tipPercentage >= 0.0 && DepositPercentage(inp.depositField) >= 0.0
    requires drinkCost >= 0.0 && entremesesCost >= 0.0 && additionalCost >= 0.0
    ensures AllMoneyNonNegative(Assemble(inp, drinkCost, alcoholicQty, entremesesCost, additionalCost))
  {
    var guests := PricingGuestCount(inp.guestCountManual, inp.guestCountSlider);
    var r := Assemble(inp, drinkCost, alcoholicQty, entremesesCost, additionalCost);
    ProductNonNegative(inp.foodPrice, guests as real);
    ProductNonNegative(inp.breakfastPrice, guests as real);
    assert r.subtotalBeforeTaxes >= 0.0;
    ProductNonNegative(r.subtotalBeforeTaxes, inp.tipPercentage / 100.0);
    assert r.totalCost >= 0.0;
    ProductNonNegative(r.totalCost, r.depositPercentage / 100.0);
  }

  /** With a non-negative guest count the three accumulated lines are non-negative. */
  lemma SumsNonNegative(inp: PriceInputs, bev: Selection, entr: Selection)
    requires PricingGuestCount(inp.guestCountManual, inp.guestCountSlider) >= 0
    ensures var guests := PricingGuestCount(inp.guestCountManual, inp.guestCountSlider);
      && DrinkCost(bev, guests, BeverageItems()) >= 0.0
      && EntremesesCost(entr, guests, EntremesesItems()) >= 0.0
      && AdditionalCost(inp.services) >= 0.0
  {
    var guests := PricingGuestCount(inp.guestCountManual, inp.guestCountSlider);
    CatalogPricesNonNegative();
    DrinkCostNonNegative(bev, guests, BeverageItems());
    EntremesesCostNonNegative(entr, guests, EntremesesItems());
    AdditionalCostClosedForm(inp.services);
  }

  /**
   * With a non-negative guest count, prices and percentages, every money
   * field of the breakdown is non-negative, for any selections.
   */
  lemma BreakdownNonNegative(inp: PriceInputs, bev: Selection, entr: Selection)
    requires PricingGuestCount(inp.guestCountManual, inp.guestCountSlider) >= 0
    requires inp.foodPrice >= 0.0 && inp.breakfastPrice >= 0.0
    requires inp.tipPercentage >= 0.0 && DepositPercentage(inp.depositField) >= 0.0
    ensures AllMoneyNonNegative(Breakdown(inp, bev, entr))
  {
    var guests := PricingGuestCount(inp.guestCountManual, inp.guestCountSlider);
    SumsNonNegative(inp, bev, entr);
    AssembleNonNegative(inp, DrinkCost(bev, guests, BeverageItems()), AlcoholicQty(bev, BeverageItems()),
                        EntremesesCost(entr, guests, EntremesesItems()), AdditionalCost(inp.services));
  }

  /**
   * The deposit percentage is the selector's value, or 20 without a selector,
   * and the deposit is that percentage of the final total.
   */
  lemma AssembleDeposit(inp: PriceInputs, drinkCost: real, alcoholicQty: int, entremesesCost: real, additionalCost: real)
    ensures var r := Assemble(inp, drinkCost, alcoholicQty, entremesesCost, additionalCost);
      && (inp.depositField.Some? ==> r.depositPercentage == inp.depositField.value)
      && (inp.depositField.None? ==> r.depositPercentage == 20.0)
      && r.depositAmount == r.totalCost * (r.depositPercentage / 100.0)
  {
  }

  lemma DepositBound(p: PriceBreakdown)
    requires p.totalCost >= 0.0 && 0.0 <= p.depositPercentage <= 100.0
    requires p.depositAmount == p.totalCost * (p.depositPercentage / 100.0)
    ensures 0.0 <= p.depositAmount <= p.totalCost
  {
  }

  /** `Assemble` with non-negative sums and a percentage up to 100 keeps the deposit within the total. */
  lemma AssembleDepositWithinTotal(inp: PriceInputs, drinkCost: real, alcoholicQty: int, entremesesCost: real, additionalCost: real)
    requires PricingGuestCount(inp.guestCountManual, inp.guestCountSlider) >= 0
    requires inp.foodPrice >= 0.0 && inp.breakfastPrice >= 0.0 && inp.tipPercentage >= 0.0
    requires 0.0 <= DepositPercentage(inp.depositField) <= 100.0
    requires drinkCost >= 0.0 && entremesesCost >= 0.0 && additionalCost >= 0.0
    ensures var r := Assemble(inp, drinkCost, alcoholicQty, entremesesCost, additionalCost);
      0.0 <= r.depositAmount <= r.totalCost && r.depositAmount == r.totalCost * (r.depositPercentage / 100.0)
  {
    AssembleNonNegative(inp, drinkCost, alcoholicQty, entremesesCost, additionalCost);
    AssembleDeposit(inp, drinkCost, alcoholicQty, entremesesCost, additionalCost);
    DepositBound(Assemble(inp, drinkCost, alcoholicQty, entremesesCost, additionalCost));
  }

  /** A deposit percentage between 0 and 100 gives a deposit between 0 and the total. */
  lemma DepositWithinTotal(inp: PriceInputs, bev: Selection, entr: Selection)
    requires PricingGuestCount(inp.guestCountManual, inp.guestCountSlider) >= 0
    requires inp.foodPrice >= 0.0 && inp.breakfastPrice >= 0.0 && inp.tipPercentage >= 0.0
    requires 0.0 <= DepositPercentage(inp.depositField) <= 100.0
    ensures var r := Breakdown(inp, bev, entr);
      0.0 <= r.depositAmount <= r.totalCost && r.depositAmount == r.totalCost * (r.depositPercentage / 100.0)
  {
    var guests := PricingGuestCount(inp.guestCountManual, inp.guestCountSlider);
    SumsNonNegative(inp, bev, entr);
    AssembleDepositWithinTotal(inp, DrinkCost(bev, guests, BeverageItems()), AlcoholicQty(bev, BeverageItems()),
                               EntremesesCost(entr, guests, EntremesesItems()), AdditionalCost(inp.services));
  }

  // ----- Worked examples -----

  /** Fifty guests at a $20 buffet, no services, no tip, a 20% deposit. */
  function BuffetFor50(): PriceInputs
  {
    PriceInputs(50, 50, 20.0, 0.0, 4, {}, 0.0, Some(20.0))
  }

  /** The buffet alone: food taxes only, a $1070 total and a $214 deposit. */
  lemma ScenarioBuffetOnly()
    ensures var r := Breakdown(BuffetFor50(), [], []);
      && r.foodCost == 1000.0 && r.taxes.foodStateReducedTax == 60.0 && r.taxes.foodCityTax == 10.0
      && r.taxes.alcoholStateTax == 0.0 && r.taxes.totalTaxes == 70.0
      && r.subtotalBeforeTaxes == 1000.0 && r.totalCost == 1070.0 && r.depositAmount == 214.0
  {
    AdditionalCostClosedForm({});
  }

  /** Looking up Medalla in the beverage list finds the $72 alcoholic case. */
  lemma FindMedalla()
    ensures FindBeverage(BeverageItems(), "medalla") == Some(BeverageItem("medalla", "Medalla", 72.0, true))
  {
    FindBeverageFirst(BeverageItems(), 3, "medalla");
  }

  /** Looking up the soft-drink case finds the first row, $35 and not alcoholic. */
  lemma FindSoftDrinks()
    ensures FindBeverage(BeverageItems(), "soft-drinks") == Some(BeverageItem("soft-drinks", "Caja de Refrescos (24)", 35.0, false))
  {
    assert BeverageItems()[0].id == "soft-drinks";
  }

  /** Two cases of an alcoholic $72 item cost 144 and count two alcoholic units. */
  lemma TwoMedallaCases(beverages: seq<BeverageItem>)
    requires FindBeverage(beverages, "medalla") == Some(BeverageItem("medalla", "Medalla", 72.0, true))
    ensures DrinkCost([Entry("medalla", Qty(2))], 50, beverages) == 144.0
    ensures AlcoholicQty([Entry("medalla", Qty(2))], beverages) == 2
  {
    var s := [Entry("medalla", Qty(2))];
    assert s[..0] == [];
  }

  /** One case of Medalla and one of soft drinks cost 107 and count one alcoholic unit. */
  lemma MedallaAndSoftDrinks(beverages: seq<BeverageItem>)
    requires FindBeverage(beverages, "medalla") == Some(BeverageItem("medalla", "Medalla", 72.0, true))
    requires FindBeverage(beverages, "soft-drinks") == Some(BeverageItem("soft-drinks", "Caja de Refrescos (24)", 35.0, false))
    ensures DrinkCost([Entry("medalla", Qty(1)), Entry("soft-drinks", Qty(1))], 10, beverages) == 107.0
    ensures AlcoholicQty([Entry("medalla", Qty(1)), Entry("soft-drinks", Qty(1))], beverages) == 1
  {
    var s := [Entry("medalla", Qty(1)), Entry("soft-drinks", Qty(1))];
    assert s[..1] == [Entry("medalla", Qty(1))];
    assert s[..1][..0] == [];
  }

  /** The buffet for fifty with $144 of drinks, some alcoholic, once the sums are known. */
  lemma AssembleBuffetWithDrinks(alcoholicQty: int)
    requires alcoholicQty > 0
    ensures var r := Assemble(BuffetFor50(), 144.0, alcoholicQty, 0.0, 0.0);
      && r.drinkCost == 144.0 && r.taxes.alcoholStateTax == 15.12
      && r.taxes.foodStateReducedTax == 60.0 && r.taxes.foodCityTax == 10.0
      && r.taxes.totalTaxes == 85.12 && r.totalCost == 1229.12
  {
  }

  /**
   * The same event with beverages worth $144 that include alcohol (two cases
   * of Medalla, say): the drinks enter the alcohol tax only (10.5% of 144),
   * the food taxes do not move and the total is $1229.12.
   */
  lemma ScenarioWithBeer(bev: Selection)
    requires DrinkCost(bev, 50, BeverageItems()) == 144.0 && AlcoholicQty(bev, BeverageItems()) > 0
    ensures var r := Breakdown(BuffetFor50(), bev, []);
      && r.drinkCost == 144.0 && r.taxes.alcoholStateTax == 15.12
      && r.taxes.foodStateReducedTax == 60.0 && r.taxes.foodCityTax == 10.0
      && r.taxes.totalTaxes == 85.12 && r.totalCost == 1229.12
  {
    AdditionalCostClosedForm({});
    assert PricingGuestCount(50, 50) == 50;
    AssembleBuffetWithDrinks(AlcoholicQty(bev, BeverageItems()));
  }

  /** Two cases of Medalla are such a selection. */
  lemma TwoMedallaCasesPriced()
    ensures DrinkCost([Entry("medalla", Qty(2))], 50, BeverageItems()) == 144.0
    ensures AlcoholicQty([Entry("medalla", Qty(2))], BeverageItems()) == 2
  {
    FindMedalla();
    TwoMedallaCases(BeverageItems());
  }

  /** A soft-drink case beside one alcoholic case is taxed at the alcohol rate too. */
  lemma ScenarioSoftDrinksTaxedWithBeer()
    ensures var r := Breakdown(PriceInputs(10, 10, 0.0, 0.0, 4, {}, 0.0, Some(0.0)),
                               [Entry("medalla", Qty(1)), Entry("soft-drinks", Qty(1))], []);
      r.drinkCost == 107.0 && r.taxes.alcoholStateTax == 0.105 * 107.0
  {
    FindMedalla();
    FindSoftDrinks();
    MedallaAndSoftDrinks(BeverageItems());
  }
}

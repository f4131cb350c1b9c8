/**
 * `ReservationManager`: the object behind the page. It holds the reservation
 * list, the two modal selections being edited and the calendar position, and
 * its methods change them in place.
 */
module Manager {
  import opened Wrappers
  import opened Catalog
  import opened Selections
  import opened Pricing
  import opened Helpers
  import opened Ledger

  /** The calendar position as one count of months. */
  function MonthIndex(year: int, month: int): int
  {
    year * 12 + month
  }

  /** On months within 0..11 the count of months determines the position. */
  lemma MonthIndexInjective(y1: int, m1: int, y2: int, m2: int)
    requires 0 <= m1 <= 11 && 0 <= m2 <= 11
    requires MonthIndex(y1, m1) == MonthIndex(y2, m2)
    ensures y1 == y2 && m1 == m2
  {
  }

  class ReservationManager {
    var reservations: seq<Reservation>
    var beverageSelections: Selection
    var entremesesSelections: Selection
    var currentCalendarMonth: int
    var currentCalendarYear: int
    const isDemoMode: bool

    /** The calendar month is a month of the year, 0 for January. */
    predicate Valid()
      reads this
    {
      0 <= currentCalendarMonth <= 11
    }

    /** The state the constructor sets up; the clock supplies the month and year. */
    constructor (month: int, year: int, demoMode: bool)
      requires 0 <= month <= 11
      ensures Valid()
      ensures reservations == [] && beverageSelections == [] && entremesesSelections == []
      ensures currentCalendarMonth == month && currentCalendarYear == year && isDemoMode == demoMode
    {
      reservations := [];
      beverageSelections := [];
      entremesesSelections := [];
      currentCalendarMonth := month;
      currentCalendarYear := year;
      isDemoMode := demoMode;
    }

    /**
     * `initializeStorage` on its local-storage paths; `stored` is what the
     * storage holds. In demo mode, when the well-formedness filter dropped a
     * record, the filtered list is saved back; `firstWriteFails` says whether
     * that save's first write fails.
     */
    method InitializeStorage(stored: seq<Reservation>, firstWriteFails: bool)
      modifies this`reservations
      ensures var loaded := InitialReservations(stored, isDemoMode);
        reservations == if isDemoMode && |loaded| != |LoadFromLocalStorage(stored, isDemoMode)|
                        then AfterLocalSave(loaded, firstWriteFails) else loaded
    {
      reservations := LoadFromLocalStorage(stored, isDemoMode);
      if isDemoMode {
        var valid := Filter(reservations, IsWellFormed);
        FilterLength(reservations, IsWellFormed);
        if |valid| != |reservations| {
          reservations := valid;
          SaveReservationsToLocalStorage(firstWriteFails);
        }
      }
    }

    /** `saveReservationsToLocalStorage`: a failed first write is retried with the last 50 records. */
    method SaveReservationsToLocalStorage(firstWriteFails: bool)
      modifies this`reservations
      ensures reservations == AfterLocalSave(old(reservations), firstWriteFails)
    {
      if firstWriteFails {
        if |reservations| > 50 {
          reservations := reservations[|reservations| - 50..];
        }
      }
    }

    /** `calculatePrice`: the breakdown of the current form and selections. */
    method CalculatePrice(inp: PriceInputs) returns (r: PriceBreakdown)
      ensures r == Breakdown(inp, beverageSelections, entremesesSelections)
    {
      var guestCount := PricingGuestCount(inp.guestCountManual, inp.guestCountSlider);
      var drinkCost, alcoholicQty := TallyBeverages(beverageSelections, guestCount, BeverageItems());
      var entremesesCost := TallyEntremeses(entremesesSelections, guestCount, EntremesesItems());
      var additionalCost := TallyServices(inp.services);
      r := Assemble(inp, drinkCost, alcoholicQty, entremesesCost, additionalCost);
    }

    /** `saveBeverageSelectionsFromModal`: `form` maps each input key to the number it reads. */
    method SaveBeverageSelectionsFromModal(form: map<string, int>, mimosaChecked: bool)
      modifies this`beverageSelections
      ensures beverageSelections == BeverageSelectionsFrom(form, mimosaChecked)
    {
      var selections := CollectFormQuantities(BeverageFormKeys(), form);
      if mimosaChecked {
        selections := selections + [Entry(MimosaKey, Flag(true))];
      }
      beverageSelections := selections;
    }

    /** `saveEntremesesSelectionsFromModal`. */
    method SaveEntremesesSelectionsFromModal(form: map<string, int>, asopaoChecked: bool, cevicheChecked: bool)
      modifies this`entremesesSelections
      ensures entremesesSelections == EntremesesSelectionsFrom(form, asopaoChecked, cevicheChecked)
    {
      var selections := CollectFormQuantities(EntremesesFormKeys(), form);
      if asopaoChecked {
        selections := selections + [Entry(AsopaoKey, Flag(true))];
      }
      if cevicheChecked {
        selections := selections + [Entry(CevicheKey, Flag(true))];
      }
      entremesesSelections := selections;
    }

    /**
     * `saveReservation`: validate, and when nothing is missing push a new
     * unpaid record built from the form and the current selections, then
     * clear the selections with the form. `id` stands for the timestamp id;
     * `firstWriteFails` says whether the save's first local write fails.
     */
    method SaveReservation(id: string, form: ReservationForm, v: ValidationInputs, inp: PriceInputs, firstWriteFails: bool)
      returns (missing: seq<string>)
      modifies this`reservations, this`beverageSelections, this`entremesesSelections
      ensures missing == Validate(v, form, inp, isDemoMode)
      ensures missing != [] ==>
        && reservations == old(reservations)
        && beverageSelections == old(beverageSelections)
        && entremesesSelections == old(entremesesSelections)
      ensures missing == [] ==>
        && reservations == AfterLocalSave(old(reservations)
             + [NewReservation(id, form, inp, old(beverageSelections), old(entremesesSelections), isDemoMode)], firstWriteFails)
        && beverageSelections == [] && entremesesSelections == []
    {
      var pricing := CalculatePrice(inp);
      missing := ValidateReservation(v, form, inp, isDemoMode);
      var guestCount := ValidationGuestCount(inp.guestCountManual, inp.guestCountSlider);
      if missing != [] {
        return;
      }
      var reservation := Reservation(
        id, form.clientName, form.clientPhone, form.eventDate, form.eventTime,
        if form.eventType == "other" then form.otherEventType else form.eventType,
        if form.eventDuration == "" then "4" else form.eventDuration,
        form.roomType, form.foodType, beverageSelections, entremesesSelections,
        SavedGuestCount(pricing.guestCount, guestCount),
        ServiceFlags(inp.services),
        form.tipPercentage, form.depositPercentage,
        false, Some(pricing), isDemoMode);
      reservations := reservations + [reservation];
      SaveReservationsToLocalStorage(firstWriteFails);
      beverageSelections := [];
      entremesesSelections := [];
    }

    /**
     * `toggleDepositStatus`: flip the deposit flag of the first record with the
     * id and save; `balance` is the figure the card then shows, when there is
     * one.
     */
    method ToggleDepositStatus(id: string, firstWriteFails: bool) returns (balance: Option<real>)
      modifies this`reservations
      ensures reservations == if FindById(old(reservations), id).Some?
                              then AfterLocalSave(ToggleDeposit(old(reservations), id), firstWriteFails)
                              else old(reservations)
      ensures match FindById(ToggleDeposit(old(reservations), id), id)
        case None => balance.None?
        case Some(r) => balance == if r.pricing.Some? then Some(DisplayedBalance(r.depositPaid, r.pricing.value)) else None
    {
      ToggleDepositEffect(reservations, id);
      var index := FirstIndex(reservations, id);
      if index.None? {
        return None;
      }
      var i := index.value;
      var reservation := reservations[i].(depositPaid := !reservations[i].depositPaid);
      reservations := reservations[i := reservation];
      FirstIndexOnlyReadsIds(old(reservations), reservations, id);
      SaveReservationsToLocalStorage(firstWriteFails);
      balance := if reservation.pricing.Some? then Some(DisplayedBalance(reservation.depositPaid, reservation.pricing.value)) else None;
    }

    /** `deleteReservation`: after confirmation, drop every record with the id and save. */
    method DeleteReservation(id: string, confirmed: bool, firstWriteFails: bool)
      modifies this`reservations
      ensures reservations == if confirmed then AfterLocalSave(RemoveById(old(reservations), id), firstWriteFails)
                              else old(reservations)
    {
      if confirmed {
        reservations := RemoveById(reservations, id);
        SaveReservationsToLocalStorage(firstWriteFails);
      }
    }

    /**
     * `editReservation`: load the first record with the id back into the
     * selections and take every record with the id out of the list until it
     * is saved again, then save the list.
     */
    method EditReservation(id: string, firstWriteFails: bool) returns (found: Option<Reservation>)
      modifies this`reservations, this`beverageSelections, this`entremesesSelections
      ensures found == FindById(old(reservations), id)
      ensures found.None? ==>
        && reservations == old(reservations)
        && beverageSelections == old(beverageSelections)
        && entremesesSelections == old(entremesesSelections)
      ensures found.Some? ==>
        && beverageSelections == found.value.beverages
        && entremesesSelections == found.value.entremeses
        && reservations == AfterLocalSave(RemoveById(old(reservations), id), firstWriteFails)
    {
      found := FindById(reservations, id);
      if found.None? {
        return;
      }
      beverageSelections := found.value.beverages;
      entremesesSelections := found.value.entremeses;
      reservations := RemoveById(reservations, id);
      SaveReservationsToLocalStorage(firstWriteFails);
    }

    /** `previousMonth`: one month back, wrapping from January to December of the year before. */
    method PreviousMonth()
      requires Valid()
      modifies this`currentCalendarMonth, this`currentCalendarYear
      ensures Valid()
      ensures MonthIndex(currentCalendarYear, currentCalendarMonth)
              == MonthIndex(old(currentCalendarYear), old(currentCalendarMonth)) - 1
    {
      currentCalendarMonth := currentCalendarMonth - 1;
      if currentCalendarMonth < 0 {
        currentCalendarMonth := 11;
        currentCalendarYear := currentCalendarYear - 1;
      }
    }

    /** `nextMonth`: one month on, wrapping from December to January of the next year. */
    method NextMonth()
      requires Valid()
      modifies this`currentCalendarMonth, this`currentCalendarYear
      ensures Valid()
      ensures MonthIndex(currentCalendarYear, currentCalendarMonth)
              == MonthIndex(old(currentCalendarYear), old(currentCalendarMonth)) + 1
    {
      currentCalendarMonth := currentCalendarMonth + 1;
      if currentCalendarMonth > 11 {
        currentCalendarMonth := 0;
        currentCalendarYear := currentCalendarYear + 1;
      }
    }
  }

  /**
   * The checks `saveReservation` runs before it saves: the shown required
   * fields, the "other" event type, the guest count and, outside demo mode,
   * the buffet choices; `missing` lists what is absent.
   */
  method ValidateReservation(v: ValidationInputs, form: ReservationForm, inp: PriceInputs, isDemoMode: bool)
    returns (missing: seq<string>)
    ensures missing == Validate(v, form, inp, isDemoMode)
  {
    missing := CollectMissingFields(v.fields);
    if form.eventType == "other" {
      if v.otherEventType.None? || IsBlank(v.otherEventType.value) {
        missing := AddOnce(missing, "otherEventType");
      }
    }
    var guestCount := ValidationGuestCount(inp.guestCountManual, inp.guestCountSlider);
    if guestCount < 1 {
      missing := AddOnce(missing, "guestCount");
    }
    if IsBuffet(Some(form.foodType)) && !isDemoMode {
      missing := BuffetMissing(missing, v.buffet);
    }
  }

  /**
   * The `inputs.forEach` loop both modal savers run: read each input and keep
   * the positive quantities, in input order.
   */
  method CollectFormQuantities(keys: seq<string>, form: map<string, int>) returns (selections: Selection)
    ensures selections == CollectQuantities(keys, form)
  {
    selections := [];
    for i := 0 to |keys|
      invariant selections == CollectQuantities(keys[..i], form)
    {
      assert keys[..i + 1][..i] == keys[..i];
      var qty := FormQty(form, keys[i]);
      if qty > 0 {
        selections := selections + [Entry(keys[i], Qty(qty))];
      }
    }
    assert keys[..|keys|] == keys;
  }

  /** The beverage loop of `calculatePrice`: cost of every entry, and the alcoholic units among them. */
  method TallyBeverages(bev: Selection, guestCount: int, beverages: seq<BeverageItem>)
    returns (drinkCost: real, alcoholicQty: int)
    ensures drinkCost == DrinkCost(bev, guestCount, beverages)
    ensures alcoholicQty == AlcoholicQty(bev, beverages)
  {
    drinkCost := 0.0;
    alcoholicQty := 0;
    for i := 0 to |bev|
      invariant drinkCost == DrinkCost(bev[..i], guestCount, beverages)
      invariant alcoholicQty == AlcoholicQty(bev[..i], beverages)
    {
      var e := bev[i];
      assert bev[..i + 1][..i] == bev[..i];
      if e.key == MimosaKey && e.value == Flag(true) {
        drinkCost := drinkCost + MimosaPerPerson * guestCount as real;
      } else {
        var item := FindBeverage(beverages, e.key);
        var qty := ToNumber(e.value);
        if item.Some? && qty > 0 {
          drinkCost := drinkCost + item.value.price * qty as real;
          if item.value.alcohol {
            alcoholicQty := alcoholicQty + qty;
          }
        }
      }
    }
    assert bev[..|bev|] == bev;
  }

  /** The entremeses loop of `calculatePrice`. */
  method TallyEntremeses(entr: Selection, guestCount: int, entremeses: seq<EntremesItem>)
    returns (entremesesCost: real)
    ensures entremesesCost == EntremesesCost(entr, guestCount, entremeses)
  {
    entremesesCost := 0.0;
    for i := 0 to |entr|
      invariant entremesesCost == EntremesesCost(entr[..i], guestCount, entremeses)
    {
      var e := entr[i];
      assert entr[..i + 1][..i] == entr[..i];
      if e.key == AsopaoKey && e.value == Flag(true) {
        entremesesCost := entremesesCost + AsopaoPerPerson * guestCount as real;
      } else if e.key == CevicheKey && e.value == Flag(true) {
        entremesesCost := entremesesCost + CevichePerPerson * guestCount as real;
      } else {
        var item := FindEntremes(entremeses, e.key);
        var qty := ToNumber(e.value);
        if item.Some? && qty > 0 {
          entremesesCost := entremesesCost + item.value.price * qty as real;
        }
      }
    }
    assert entr[..|entr|] == entr;
  }

  /** The services loop of `calculatePrice`: the price of each checked service. */
  method TallyServices(checked: set<Service>) returns (additionalCost: real)
    ensures additionalCost == AdditionalCost(checked)
  {
    var services := AllServices();
    additionalCost := 0.0;
    for i := 0 to |services|
      invariant additionalCost == ServicesCost(services[..i], checked)
    {
      assert services[..i + 1][..i] == services[..i];
      if services[i] in checked {
        additionalCost := additionalCost + ServicePrice(services[i]);
      }
    }
    assert services[..|services|] == services;
  }
}

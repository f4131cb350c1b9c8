/**
 * The saved reservations: the record `saveReservation` builds, the checks it
 * runs before building it, and the pure list operations behind deposit
 * toggling, deletion, editing, loading and the storage-full trim, plus the
 * balance and invoice figures read off a saved record.
 */
module Ledger {
  import opened Wrappers
  import opened Catalog
  import opened Selections
  import opened Pricing
  import opened Helpers

  /** One entry of the `additionalServices` object: a service and whether it was ticked. */
  datatype ServiceFlag = ServiceFlag(service: Service, checked: bool)

  datatype Reservation = Reservation(
    id: string,
    clientName: string,
    clientPhone: string,
    eventDate: string,
    eventTime: string,
    eventType: string,
    eventDuration: string,
    roomType: string,
    foodType: string,
    beverages: Selection,
    entremeses: Selection,
    guestCount: int,
    additionalServices: seq<ServiceFlag>,
    tipPercentage: real,
    depositPercentage: real,
    depositPaid: bool,
    pricing: Option<PriceBreakdown>,
    isDemo: bool)

  // ----- Generic filtering -----

  /** `s.filter(keep)`: the elements `keep` accepts, in their original order. */
  function Filter<T(!new)>(s: seq<T>, keep: T -> bool): (r: seq<T>)
    ensures |r| <= |s|
    decreases |s|
  {
    if s == [] then []
    else
      (if keep(s[0]) then [s[0]] else []) + Filter(s[1..], keep)
  }

  /** Filtering changes nothing when every element is accepted, and shortens the sequence otherwise. */
  lemma {:induction false} FilterLength<T(!new)>(s: seq<T>, keep: T -> bool)
    ensures (forall i :: 0 <= i < |s| ==> keep(s[i])) ==> Filter(s, keep) == s
    ensures (exists i :: 0 <= i < |s| && !keep(s[i])) ==> |Filter(s, keep)| < |s|
    decreases |s|
  {
    if s != [] {
      FilterLength(s[1..], keep);
      assert forall i :: 1 <= i < |s| ==> s[1..][i - 1] == s[i];
    }
  }

  /** The filtered sequence holds exactly the accepted elements of the original. */
  lemma {:induction false} FilterMembers<T(!new)>(s: seq<T>, keep: T -> bool)
    ensures forall x :: x in Filter(s, keep) <==> x in s && keep(x)
    decreases |s|
  {
    if s != [] {
      FilterMembers(s[1..], keep);
      assert s == [s[0]] + s[1..];
    }
  }

  /** Filtering a concatenation filters each part: the relative order is kept. */
  lemma {:induction false} FilterAppend<T(!new)>(a: seq<T>, b: seq<T>, keep: T -> bool)
    ensures Filter(a + b, keep) == Filter(a, keep) + Filter(b, keep)
    decreases |a|
  {
    if a == [] {
      assert a + b == b;
    } else {
      var head := if keep(a[0]) then [a[0]] else [];
      calc {
        Filter(a + b, keep);
        { assert (a + b)[0] == a[0] && (a + b)[1..] == a[1..] + b; }
        head + Filter(a[1..] + b, keep);
        { FilterAppend(a[1..], b, keep); }
        head + (Filter(a[1..], keep) + Filter(b, keep));
        (head + Filter(a[1..], keep)) + Filter(b, keep);
        Filter(a, keep) + Filter(b, keep);
      }
    }
  }

  lemma FilterIdempotent<T(!new)>(s: seq<T>, keep: T -> bool)
    ensures Filter(Filter(s, keep), keep) == Filter(s, keep)
  {
    var r := Filter(s, keep);
    FilterMembers(s, keep);
    assert forall i :: 0 <= i < |r| ==> r[i] in r;
    FilterLength(r, keep);
  }

  // ----- Loading -----

  /** The check `initializeStorage` applies: a pricing object with a total, and a client name. */
  predicate IsWellFormed(r: Reservation)
  {
    r.pricing.Some? && r.clientName != ""
  }

  /** `loadReservationsFromLocalStorage`: in demo mode only records marked as demo. */
  function LoadFromLocalStorage(stored: seq<Reservation>, isDemoMode: bool): seq<Reservation>
  {
    if isDemoMode then Filter(stored, (r: Reservation) => r.isDemo) else stored
  }

  /** The list `initializeStorage` starts from (the local-storage paths). */
  function InitialReservations(stored: seq<Reservation>, isDemoMode: bool): seq<Reservation>
  {
    var loaded := LoadFromLocalStorage(stored, isDemoMode);
    if isDemoMode then Filter(loaded, IsWellFormed) else loaded
  }

  /**
   * In demo mode every loaded record is a well-formed demo record, and every
   * stored well-formed demo record is loaded.
   */
  lemma DemoLoadKeepsExactlyDemoRecords(stored: seq<Reservation>)
    ensures forall r :: r in InitialReservations(stored, true) <==> r in stored && r.isDemo && IsWellFormed(r)
  {
    FilterMembers(stored, (r: Reservation) => r.isDemo);
    FilterMembers(Filter(stored, (r: Reservation) => r.isDemo), IsWellFormed);
  }

  /** Loading twice loads nothing new: the filters are idempotent. */
  lemma InitialReservationsStable(stored: seq<Reservation>, isDemoMode: bool)
    ensures InitialReservations(InitialReservations(stored, isDemoMode), isDemoMode)
            == InitialReservations(stored, isDemoMode)
  {
    if isDemoMode {
      var demo := Filter(stored, (r: Reservation) => r.isDemo);
      var loaded := Filter(demo, IsWellFormed);
      FilterMembers(stored, (r: Reservation) => r.isDemo);
      FilterMembers(demo, IsWellFormed);
      assert forall i :: 0 <= i < |loaded| ==> loaded[i] in loaded;
      FilterLength(loaded, (r: Reservation) => r.isDemo);
      assert Filter(loaded, (r: Reservation) => r.isDemo) == loaded;
      FilterIdempotent(demo, IsWellFormed);
    }
  }

  // ----- Saving to local storage -----

  /** What `saveReservationsToLocalStorage` keeps when the first write fails: the last 50 records. */
  function TrimForRetry(rs: seq<Reservation>): (r: seq<Reservation>)
    ensures |r| == if |rs| > 50 then 50 else |rs|
    ensures rs == rs[..|rs| - |r|] + r
  {
    if |rs| > 50 then rs[|rs| - 50..] else rs
  }

  /**
   * The list once `saveReservationsToLocalStorage` has run: trimmed to its
   * last 50 records when the first write fails, unchanged otherwise.
   */
  function AfterLocalSave(rs: seq<Reservation>, firstWriteFails: bool): seq<Reservation>
  {
    if firstWriteFails then TrimForRetry(rs) else rs
  }

  /** The save never loses the record just pushed: it stays the last one. */
  lemma SaveKeepsNewest(rs: seq<Reservation>, r: Reservation, firstWriteFails: bool)
    ensures var after := AfterLocalSave(rs + [r], firstWriteFails);
      |after| >= 1 && after[|after| - 1] == r && r in after
  {
    var after := AfterLocalSave(rs + [r], firstWriteFails);
    var all := rs + [r];
    assert all == all[..|all| - |after|] + after;
    assert after[|after| - 1] == all[|all| - 1];
  }

  // ----- Finding, toggling, deleting -----

  /** The index `Array.find` stops at: the first record with this id. */
  function FirstIndex(rs: seq<Reservation>, id: string): (r: Option<nat>)
    ensures r.Some? ==> r.value < |rs| && rs[r.value].id == id
                        && forall j :: 0 <= j < r.value ==> rs[j].id != id
    ensures r.None? ==> forall j :: 0 <= j < |rs| ==> rs[j].id != id
    decreases |rs|
  {
    if rs == [] then None
    else if rs[0].id == id then Some(0)
    else
      match FirstIndex(rs[1..], id)
      case None => None
      case Some(i) => Some(i + 1)
  }

  /** `this.reservations.find(r => r.id === id)`. */
  function FindById(rs: seq<Reservation>, id: string): (r: Option<Reservation>)
    ensures r.Some? ==> r.value in rs && r.value.id == id
    ensures r.None? <==> forall j :: 0 <= j < |rs| ==> rs[j].id != id
  {
    match FirstIndex(rs, id)
    case None => None
    case Some(i) => Some(rs[i])
  }

  /** The first index of an id depends only on the ids of the list. */
  lemma {:induction false} FirstIndexOnlyReadsIds(a: seq<Reservation>, b: seq<Reservation>, id: string)
    requires |a| == |b| && forall j :: 0 <= j < |a| ==> a[j].id == b[j].id
    ensures FirstIndex(a, id) == FirstIndex(b, id)
    decreases |a|
  {
    if a != [] && a[0].id != id {
      FirstIndexOnlyReadsIds(a[1..], b[1..], id);
    }
  }

  /** `toggleDepositStatus`: flip `depositPaid` on the first record with the id, if any. */
  function ToggleDeposit(rs: seq<Reservation>, id: string): seq<Reservation>
  {
    match FirstIndex(rs, id)
    case None => rs
    case Some(i) => rs[i := rs[i].(depositPaid := !rs[i].depositPaid)]
  }

  /**
   * Toggling changes exactly one field of exactly one record, the first with
   * the id; with no such record nothing changes.
   */
  lemma ToggleDepositEffect(rs: seq<Reservation>, id: string)
    ensures var r := ToggleDeposit(rs, id);
      && |r| == |rs|
      && (forall j :: 0 <= j < |rs| ==> r[j].id == rs[j].id)
      && (FindById(rs, id).None? ==> r == rs)
      && (FirstIndex(rs, id).Some? ==>
            var i := FirstIndex(rs, id).value;
            && r[i].depositPaid == !rs[i].depositPaid
            && r[i].(depositPaid := rs[i].depositPaid) == rs[i]
            && forall j :: 0 <= j < |rs| && j != i ==> r[j] == rs[j])
  {
  }

  /** Toggling twice restores the list. */
  lemma ToggleDepositInvolution(rs: seq<Reservation>, id: string)
    ensures ToggleDeposit(ToggleDeposit(rs, id), id) == rs
  {
    var once := ToggleDeposit(rs, id);
    FirstIndexOnlyReadsIds(rs, once, id);
    match FirstIndex(rs, id)
    case None =>
    case Some(i) =>
      assert once[i].(depositPaid := !once[i].depositPaid) == rs[i];
  }

  /** `this.reservations.filter(r => r.id !== id)`, used by delete and edit. */
  function RemoveById(rs: seq<Reservation>, id: string): seq<Reservation>
  {
    Filter(rs, (r: Reservation) => r.id != id)
  }

  /**
   * Removal drops every record with the id (not only the first) and keeps
   * every other one; it removes something exactly when the id is present.
   */
  lemma RemoveByIdEffect(rs: seq<Reservation>, id: string)
    ensures forall r :: r in RemoveById(rs, id) <==> r in rs && r.id != id
    ensures FindById(RemoveById(rs, id), id).None?
    ensures FindById(rs, id).None? ==> RemoveById(rs, id) == rs
    ensures FindById(rs, id).Some? ==> |RemoveById(rs, id)| < |rs|
  {
    var r := RemoveById(rs, id);
    FilterMembers(rs, (r: Reservation) => r.id != id);
    FilterLength(rs, (r: Reservation) => r.id != id);
    assert forall j :: 0 <= j < |r| ==> r[j] in r;
    if FindById(rs, id).Some? {
      var i := FirstIndex(rs, id).value;
      assert !((x: Reservation) => x.id != id)(rs[i]);
    }
  }

  /** Removal keeps the other records in their order: it works piecewise on a concatenation. */
  lemma RemoveByIdAppend(a: seq<Reservation>, b: seq<Reservation>, id: string)
    ensures RemoveById(a + b, id) == RemoveById(a, id) + RemoveById(b, id)
  {
    FilterAppend(a, b, (r: Reservation) => r.id != id);
  }

  lemma RemoveByIdIdempotent(rs: seq<Reservation>, id: string)
    ensures RemoveById(RemoveById(rs, id), id) == RemoveById(rs, id)
  {
    FilterIdempotent(rs, (r: Reservation) => r.id != id);
  }

  // ----- Validation -----

  /** A visible input, select or textarea of the reservation form. */
  datatype FormField = FormField(id: string, name: string, value: string, required: bool, hidden: bool)

  /** The fields never reported as missing. */
  function OptionalFields(): seq<string>
  {
    ["clientEmail", "companyName", "breakfastType", "dessertType", "eventDuration", "eventType"]
  }

  /** `field.id || field.name`. */
  function FieldKey(f: FormField): string
  {
    if f.id != "" then f.id else f.name
  }

  /** A shown, required, non-optional field whose trimmed value is empty. */
  predicate FieldMissing(f: FormField)
  {
    && !f.hidden
    && f.id !in OptionalFields() && f.name !in OptionalFields()
    && f.required
    && IsBlank(f.value)
  }

  /** The first pass of `saveReservation`: the keys of the missing fields, in form order. */
  function MissingFromForm(fields: seq<FormField>): (r: seq<string>)
    ensures forall f :: f in fields && FieldMissing(f) ==> FieldKey(f) in r
    ensures forall k :: k in r ==> exists f :: f in fields && FieldMissing(f) && FieldKey(f) == k
    ensures |r| <= |fields|
    decreases |fields|
  {
    if fields == [] then []
    else
      var last := fields[|fields| - 1];
      var prefix := fields[..|fields| - 1];
      assert forall f :: f in fields ==> f in prefix || f == last;
      MissingFromForm(prefix) + (if FieldMissing(last) then [FieldKey(last)] else [])
  }

  /** No key is reported exactly when no shown required field is blank. */
  lemma MissingFromFormEmptyIff(fields: seq<FormField>)
    ensures MissingFromForm(fields) == [] <==> forall f :: f in fields ==> !FieldMissing(f)
  {
    var m := MissingFromForm(fields);
    if m != [] {
      assert m[0] in m;
    }
  }

  /** `if (!missingFields.includes(key)) missingFields.push(key)`. */
  function AddOnce(missing: seq<string>, key: string): (r: seq<string>)
    ensures key in r && forall k :: k in r <==> k in missing || k == key
  {
    if key in missing then missing else missing + [key]
  }

  /** The four buffet choices that must be made outside demo mode. */
  datatype BuffetChoices = BuffetChoices(rice: string, protein1: string, side: string, salad: string)

  /** What validation reads besides the form values: the form's fields and elements outside it. */
  datatype ValidationInputs = ValidationInputs(
    fields: seq<FormField>,
    otherEventType: Option<string>,
    buffet: BuffetChoices)

  /** `parseInt(manual) || parseInt(slider) || 50`, where an unreadable number is 0. */
  function ValidationGuestCount(manual: int, slider: int): (g: int)
    ensures g != 0
    ensures g < 1 <==> manual < 0 || (manual == 0 && slider < 0)
  {
    if manual != 0 then manual else if slider != 0 then slider else 50
  }

  /** An "other" event type needs the `otherEventType` element, filled in. */
  predicate OtherEventTypeGiven(v: ValidationInputs, form: ReservationForm)
  {
    form.eventType != "other" || (v.otherEventType.Some? && !IsBlank(v.otherEventType.value))
  }

  predicate BuffetComplete(b: BuffetChoices)
  {
    b.rice != "" && b.protein1 != "" && b.side != "" && b.salad != ""
  }

  function BuffetMissing(missing: seq<string>, b: BuffetChoices): seq<string>
  {
    var m1 := if b.rice == "" then AddOnce(missing, "buffetRice") else missing;
    var m2 := if b.protein1 == "" then AddOnce(m1, "buffetProtein1") else m1;
    var m3 := if b.side == "" then AddOnce(m2, "buffetSide") else m2;
    if b.salad == "" then AddOnce(m3, "buffetSalad") else m3
  }

  /** The `missingFields` list `saveReservation` ends with; the save goes ahead only when it is empty. */
  function Validate(v: ValidationInputs, form: ReservationForm, inp: PriceInputs, isDemoMode: bool): seq<string>
  {
    var m0 := MissingFromForm(v.fields);
    var m1 := if !OtherEventTypeGiven(v, form) then AddOnce(m0, "otherEventType") else m0;
    var m2 := if ValidationGuestCount(inp.guestCountManual, inp.guestCountSlider) < 1 then AddOnce(m1, "guestCount") else m1;
    if IsBuffet(Some(form.foodType)) && !isDemoMode then BuffetMissing(m2, v.buffet) else m2
  }

  lemma BuffetMissingEmptyIff(missing: seq<string>, b: BuffetChoices)
    ensures BuffetMissing(missing, b) == [] <==> missing == [] && BuffetComplete(b)
  {
  }

  /**
   * A reservation passes validation exactly when every shown required field is
   * filled, an "other" event type is named, the guest count is positive, and
   * (outside demo mode) a buffet has its rice, first protein, side and salad.
   */
  lemma ValidateAcceptsIff(v: ValidationInputs, form: ReservationForm, inp: PriceInputs, isDemoMode: bool)
    ensures Validate(v, form, inp, isDemoMode) == [] <==>
      && (forall f :: f in v.fields ==> !FieldMissing(f))
      && OtherEventTypeGiven(v, form)
      && ValidationGuestCount(inp.guestCountManual, inp.guestCountSlider) >= 1
      && (IsBuffet(Some(form.foodType)) && !isDemoMode ==> BuffetComplete(v.buffet))
  {
    var m0 := MissingFromForm(v.fields);
    MissingFromFormEmptyIff(v.fields);
    var m1 := if !OtherEventTypeGiven(v, form) then AddOnce(m0, "otherEventType") else m0;
    assert m1 == [] <==> m0 == [] && OtherEventTypeGiven(v, form);
    var m2 := if ValidationGuestCount(inp.guestCountManual, inp.guestCountSlider) < 1 then AddOnce(m1, "guestCount") else m1;
    assert m2 == [] <==> m1 == [] && ValidationGuestCount(inp.guestCountManual, inp.guestCountSlider) >= 1;
    BuffetMissingEmptyIff(m2, v.buffet);
  }

  /** In demo mode the buffet choices play no part in validation. */
  lemma DemoModeIgnoresBuffet(v: ValidationInputs, form: ReservationForm, inp: PriceInputs, b: BuffetChoices)
    ensures Validate(v, form, inp, true) == Validate(v.(buffet := b), form, inp, true)
  {
  }

  /** The validation loop of `saveReservation` over the form's fields. */
  method CollectMissingFields(fields: seq<FormField>) returns (missing: seq<string>)
    ensures missing == MissingFromForm(fields)
  {
    missing := [];
    for i := 0 to |fields|
      invariant missing == MissingFromForm(fields[..i])
    {
      var field := fields[i];
      assert fields[..i + 1][..i] == fields[..i];
      if field.hidden {
        continue;
      }
      if field.id in OptionalFields() || field.name in OptionalFields() {
        continue;
      }
      if !field.required {
        continue;
      }
      if IsBlank(field.value) {
        missing := missing + [FieldKey(field)];
      }
    }
    assert fields[..|fields|] == fields;
  }

  // ----- The saved record -----

  /** The form values copied into a reservation. */
  datatype ReservationForm = ReservationForm(
    clientName: string,
    clientPhone: string,
    eventDate: string,
    eventTime: string,
    eventType: string,
    otherEventType: string,
    eventDuration: string,
    roomType: string,
    foodType: string,
    tipPercentage: real,
    depositPercentage: real)

  /** `additionalServices`: the six services in their order, each with its checkbox. */
  function ServiceFlagsFor(list: seq<Service>, checked: set<Service>): (r: seq<ServiceFlag>)
    ensures |r| == |list| && forall i :: 0 <= i < |list| ==> r[i] == ServiceFlag(list[i], list[i] in checked)
    decreases |list|
  {
    if list == [] then []
    else ServiceFlagsFor(list[..|list| - 1], checked) + [ServiceFlag(list[|list| - 1], list[|list| - 1] in checked)]
  }

  function ServiceFlags(checked: set<Service>): seq<ServiceFlag>
  {
    ServiceFlagsFor(AllServices(), checked)
  }

  /** `pricing.guestCount || guestCount || 50`. */
  function SavedGuestCount(pricingGuests: int, validatedGuests: int): (g: int)
    ensures g != 0
    ensures pricingGuests != 0 ==> g == pricingGuests
  {
    if pricingGuests != 0 then pricingGuests else if validatedGuests != 0 then validatedGuests else 50
  }

  /** The record `saveReservation` pushes: unpaid, priced, and marked demo in demo mode. */
  function NewReservation(id: string, form: ReservationForm, inp: PriceInputs,
                          beverages: Selection, entremeses: Selection, isDemoMode: bool): Reservation
  {
    var pricing := Breakdown(inp, beverages, entremeses);
    Reservation(
      id, form.clientName, form.clientPhone, form.eventDate, form.eventTime,
      if form.eventType == "other" then form.otherEventType else form.eventType,
      if form.eventDuration == "" then "4" else form.eventDuration,
      form.roomType, form.foodType, beverages, entremeses,
      SavedGuestCount(pricing.guestCount, ValidationGuestCount(inp.guestCountManual, inp.guestCountSlider)),
      ServiceFlags(inp.services),
      form.tipPercentage, form.depositPercentage,
      false, Some(pricing), isDemoMode)
  }

  /**
   * The guest count a new record stores: the manual count, else the slider
   * value, the same count the price was computed for; with both empty the
   * price is for no guests and the record stores 50.
   */
  lemma StoredGuestCount(id: string, form: ReservationForm, inp: PriceInputs,
                         beverages: Selection, entremeses: Selection, isDemoMode: bool)
    ensures var r := NewReservation(id, form, inp, beverages, entremeses, isDemoMode);
      var priced := r.pricing.value.guestCount;
      && (inp.guestCountManual != 0 ==> r.guestCount == priced == inp.guestCountManual)
      && (inp.guestCountManual == 0 && inp.guestCountSlider != 0 ==> r.guestCount == priced == inp.guestCountSlider)
      && (inp.guestCountManual == 0 && inp.guestCountSlider == 0 ==> r.guestCount == 50 && priced == 0)
  {
  }

  /**
   * A new record is unpaid, well-formed once the client is named, loadable in
   * demo mode when made in demo mode, and holds the price of its own selections.
   */
  lemma NewReservationFacts(id: string, form: ReservationForm, inp: PriceInputs,
                            beverages: Selection, entremeses: Selection, isDemoMode: bool)
    ensures var r := NewReservation(id, form, inp, beverages, entremeses, isDemoMode);
      && !r.depositPaid && r.guestCount != 0
      && (form.clientName != "" ==> IsWellFormed(r))
      && (isDemoMode && form.clientName != "" ==> InitialReservations([r], true) == [r])
      && r.pricing == Some(Breakdown(inp, r.beverages, r.entremeses))
  {
  }

  /**
   * Editing removes the record and saving pushes a fresh one: whatever the old
   * record's deposit status, the re-saved reservation is unpaid, and the old
   * record is gone.
   */
  lemma EditThenSaveResetsDeposit(rs: seq<Reservation>, id: string, newId: string, form: ReservationForm,
                                  inp: PriceInputs, isDemoMode: bool)
    requires FindById(rs, id).Some? && FindById(rs, id).value.depositPaid
    ensures var old_ := FindById(rs, id).value;
      var after := RemoveById(rs, id) + [NewReservation(newId, form, inp, old_.beverages, old_.entremeses, isDemoMode)];
      && !after[|after| - 1].depositPaid
      && old_ !in after
  {
    RemoveByIdEffect(rs, id);
  }

  // ----- Balance and invoice -----

  /** The balance on the card and the invoice: the total, less the deposit once it is paid. */
  function DisplayedBalance(depositPaid: bool, p: PriceBreakdown): real
  {
    if depositPaid then p.totalCost - p.depositAmount else p.totalCost
  }

  lemma BalanceOfDeposit(p: PriceBreakdown, depositPaid: bool)
    requires 0.0 <= p.depositAmount <= p.totalCost
    requires p.depositAmount == p.totalCost * (p.depositPercentage / 100.0)
    ensures 0.0 <= DisplayedBalance(depositPaid, p) <= p.totalCost
    ensures DisplayedBalance(false, p) - DisplayedBalance(true, p) == p.depositAmount
    ensures DisplayedBalance(true, p) == p.totalCost * (1.0 - p.depositPercentage / 100.0)
  {
  }

  /**
   * For a deposit rate within [0, 100] the balance is never negative nor above
   * the total; marking the deposit paid lowers it by exactly the deposit.
   */
  lemma DisplayedBalanceBounds(inp: PriceInputs, bev: Selection, entr: Selection, depositPaid: bool)
    requires PricingGuestCount(inp.guestCountManual, inp.guestCountSlider) >= 0
    requires inp.foodPrice >= 0.0 && inp.breakfastPrice >= 0.0 && inp.tipPercentage >= 0.0
    requires 0.0 <= DepositPercentage(inp.depositField) <= 100.0
    ensures var p := Breakdown(inp, bev, entr);
      && 0.0 <= DisplayedBalance(depositPaid, p) <= p.totalCost
      && DisplayedBalance(false, p) - DisplayedBalance(true, p) == p.depositAmount
      && DisplayedBalance(true, p) == p.totalCost * (1.0 - p.depositPercentage / 100.0)
  {
    var guests := PricingGuestCount(inp.guestCountManual, inp.guestCountSlider);
    SumsNonNegative(inp, bev, entr);
    AssembleBalanceBounds(inp, DrinkCost(bev, guests, BeverageItems()), AlcoholicQty(bev, BeverageItems()),
                          EntremesesCost(entr, guests, EntremesesItems()), AdditionalCost(inp.services), depositPaid);
  }

  /** The balance bounds for `Assemble` with non-negative sums. */
  lemma AssembleBalanceBounds(inp: PriceInputs, drinkCost: real, alcoholicQty: int, entremesesCost: real,
                              additionalCost: real, depositPaid: bool)
    requires PricingGuestCount(inp.guestCountManual, inp.guestCountSlider) >= 0
    requires inp.foodPrice >= 0.0 && inp.breakfastPrice >= 0.0 && inp.tipPercentage >= 0.0
    requires 0.0 <= DepositPercentage(inp.depositField) <= 100.0
    requires drinkCost >= 0.0 && entremesesCost >= 0.0 && additionalCost >= 0.0
    ensures var p := Assemble(inp, drinkCost, alcoholicQty, entremesesCost, additionalCost);
      && 0.0 <= DisplayedBalance(depositPaid, p) <= p.totalCost
      && DisplayedBalance(false, p) - DisplayedBalance(true, p) == p.depositAmount
      && DisplayedBalance(true, p) == p.totalCost * (1.0 - p.depositPercentage / 100.0)
  {
    AssembleDepositWithinTotal(inp, drinkCost, alcoholicQty, entremesesCost, additionalCost);
    BalanceOfDeposit(Assemble(inp, drinkCost, alcoholicQty, entremesesCost, additionalCost), depositPaid);
  }

  /** Toggling a record twice shows the same balance again; once, it moves by the deposit. */
  lemma ToggleMovesBalanceByDeposit(rs: seq<Reservation>, id: string)
    requires FirstIndex(rs, id).Some? && rs[FirstIndex(rs, id).value].pricing.Some?
    ensures var i := FirstIndex(rs, id).value;
      var before := rs[i];
      var after := ToggleDeposit(rs, id)[i];
      var p := before.pricing.value;
      after.pricing == before.pricing
      && (if before.depositPaid then DisplayedBalance(after.depositPaid, p) == DisplayedBalance(before.depositPaid, p) + p.depositAmount
          else DisplayedBalance(after.depositPaid, p) == DisplayedBalance(before.depositPaid, p) - p.depositAmount)
  {
  }

  /** The invoice's services total: the price of each ticked service. */
  function InvoiceServicesTotal(flags: seq<ServiceFlag>): real
    decreases |flags|
  {
    if flags == [] then 0.0
    else
      var last := flags[|flags| - 1];
      InvoiceServicesTotal(flags[..|flags| - 1]) + (if last.checked then ServicePrice(last.service) else 0.0)
  }

  /** The invoice subtotal: the priced lines of the record plus its services. */
  function InvoiceSubtotal(p: PriceBreakdown, flags: seq<ServiceFlag>): real
  {
    p.roomCost + p.foodCost + p.breakfastCost + p.drinkCost + p.entremesesCost + InvoiceServicesTotal(flags)
  }

  lemma {:induction false} InvoiceServicesMatchPricing(list: seq<Service>, checked: set<Service>)
    ensures InvoiceServicesTotal(ServiceFlagsFor(list, checked)) == ServicesCost(list, checked)
    decreases |list|
  {
    if list != [] {
      var flags := ServiceFlagsFor(list, checked);
      InvoiceServicesMatchPricing(list[..|list| - 1], checked);
      assert flags[..|flags| - 1] == ServiceFlagsFor(list[..|list| - 1], checked);
    }
  }

  /** The invoice of a saved reservation reproduces the pre-tax subtotal it was priced with. */
  lemma InvoiceMatchesSavedPricing(id: string, form: ReservationForm, inp: PriceInputs,
                                   beverages: Selection, entremeses: Selection, isDemoMode: bool)
    ensures var r := NewReservation(id, form, inp, beverages, entremeses, isDemoMode);
      InvoiceSubtotal(r.pricing.value, r.additionalServices) == r.pricing.value.subtotalBeforeTaxes
  {
    InvoiceServicesMatchPricing(AllServices(), inp.services);
    TotalDecomposition(inp, beverages, entremeses);
  }
}

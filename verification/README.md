# Antesala reservations: a Dafny model of the pricing and reservation core

Antesala is a browser-based booking tool for an event venue. One class,
`ReservationManager` in `script.js`, holds all the state. It prices an event
from the form: food and breakfast per guest, a beverage map, an entremeses
(appetiser) map, extra services, a tip and a deposit. It keeps the list of
saved reservations. Its methods save a reservation, toggle its deposit status,
edit it, delete it, load the list from storage and trim it when storage is
full. It also formats phone numbers and times, clamps the guest count and
parses table layouts.

This project models that core in Dafny 4 and proves properties of the model.

- `wrappers.dfy`: `Option`.
- `catalog.dfy` (`Catalog`): the beverage and entremeses catalogs, the per-person
  prices of mimosa, asopao and ceviche, and the six extra services with their prices.
- `selections.dfy` (`Selections`): the selection maps as ordered key/value
  entries, and what the two modals save.
- `pricing.dfy` (`Pricing`): `calculatePrice` as a specification function
  (`Breakdown`), with lemmas on totals, the tax bases, the alcohol-tax gate,
  sums, non-negativity, and worked examples.
- `helpers.dfy` (`Helpers`):
  - phone masking, the 12-hour clock and `parseInt`/`String` on integers;
  - the guest clamp and slider rounding;
  - table counts and table-configuration strings;
  - the food-type prefix tests.
- `ledger.dfy` (`Ledger`):
  - the reservation record and the validation `saveReservation` runs;
  - the list operations as pure functions: find, toggle, remove, the load
    filters and the trim;
  - the displayed balance and the invoice subtotal.
- `manager.dfy` (`Manager`): the `ReservationManager` class. Its fields are
  `reservations`, `beverageSelections`, `entremesesSelections` and the calendar
  month and year. Each method either changes the fields its `modifies` clause
  names, or computes a value through loops. Each is proved against the
  functions of `Ledger`, `Pricing` and `Selections`.

Modelling choices:

- Money is `real`, so the price equalities are exact.
- A JavaScript object used as a map is a sequence of entries in insertion
  order, which is the order `Object.entries` visits them in.
- A selection value is a quantity or a boolean. A boolean counts as 1 or 0
  wherever the source compares it or multiplies by it, as JavaScript does.
- A numeric field that reads as empty or not-a-number is represented by 0.
  The manual guest count, the duration and the validation count are read
  with a `||` fallback, which treats NaN and 0 alike, so 0 is exact for them.
  The food and breakfast prices fall back to 0 on the string, before
  `parseFloat`, so a missing price is 0 as well. Two readings do not fall
  back: the slider value, which is the last operand of its `||`, and a price
  string that is present but not a number. Either would make the source's
  breakdown NaN; see "## Left out".

## Model

| member | source | states |
|---|---|---|
| Catalog.FindBeverage | script.js:1611 | `beverages.find(b => b.id === id)`: a result is a catalog item with that id; there is none exactly when no item has the id |
| Catalog.FindEntremes | script.js:1629 | the same lookup in the entremeses catalog |
| Catalog.CatalogPricesNonNegative | script.js:948-986 | every beverage and entremeses catalog price is non-negative |
| Catalog.ServicePrice | script.js:1644-1651 | service prices are non-negative; only decorations, waitstaff and valet cost anything |
| Selections.CollectQuantities | script.js:1094-1098 | the modal keeps exactly the inputs with a positive quantity, each stored with that quantity, and nothing else |
| Selections.BeverageFormKeysAreCatalogIds | script.js:1061-1093 | the beverage modal's 31 input keys are the catalog ids, in catalog order |
| Selections.BeverageFormKeysInCatalog | script.js:1061-1093 | every beverage input key is priced by the catalog |
| Selections.EntremesesFormKeysInCatalog | script.js:1206-1211 | every entremeses input key is priced by the catalog |
| Selections.SavedBeverageSelectionsShape | script.js:1060-1106 | every saved quantity is positive and comes from its input; mimosa is the only flag entry, stored as `true` and only when ticked |
| Selections.SavedBeverageMimosaIff | script.js:1100-1104 | `mimosa: true` is saved exactly when the box is ticked; every saved entry counts as positive |
| Selections.SavedEntremesesSelectionsShape | script.js:1205-1229 | asopao and ceviche are saved as `true` exactly when ticked; every other saved entry is a positive quantity from its input |
| Selections.SavedEntremesesUnique | script.js:1205-1229 | the saved entremeses map has no repeated key |
| Selections.CollectQuantitiesUnique | script.js:1094-1098 | distinct input keys give a selection with distinct keys |
| Pricing.EventDuration | script.js:1587 | the duration is never 0: the field when it is nonzero, and 1 when it is empty or 0 |
| Pricing.AssembleDecomposition | script.js:1636-1703 | for any accumulated sums: the room costs 0, the subtotal is the sum of the six cost lines, the food taxes are 6% and 1% of food + breakfast + entremeses, total taxes are the sum of the three taxes, the tip is the form's rate of the pre-tax subtotal, the total is subtotal + taxes + tip, and the deposit is the deposit percentage of the total |
| Pricing.TotalDecomposition | script.js:1636-1703 | every breakdown `calculatePrice` returns composes its lines that way |
| Pricing.TotalClosedForm | script.js:1636-1694 | the total is the subtotal grown by the tip rate, plus 7% of food + breakfast + entremeses, plus the alcohol tax |
| Pricing.FoodTaxIgnoresDrinksAndServices | script.js:1636-1640 | changing the beverages or the checked services leaves both food taxes unchanged |
| Pricing.AlcoholicQtyNonNegative | script.js:1606-1616 | the alcoholic count never goes below 0 |
| Pricing.AlcoholicQtyPositiveIff | script.js:1606-1616 | the alcoholic count is positive exactly when some entry adds alcohol-flagged units |
| Pricing.AlcoholTaxGate | script.js:1637-1641 | with an alcoholic unit the alcohol tax is 10.5% of the whole drink cost; without one it is 0 |
| Pricing.DrinkCostExtend | script.js:1606-1616 | mimosa adds 3.95 per guest; an unknown item or a non-positive quantity adds nothing; any other entry adds price × quantity, and counts toward alcohol when the item is alcoholic |
| Pricing.EntremesesCostExtend | script.js:1622-1634 | asopao adds 3.00 per guest and ceviche 3.95 per guest; a catalog item adds price × quantity when positive, and anything else adds nothing |
| Pricing.DrinkCostAppend | script.js:1606-1616 | the drink cost of a concatenation is the sum of the parts' drink costs |
| Pricing.DrinkCostPermutation | script.js:1606-1616 | the drink cost does not depend on the order of the entries |
| Pricing.EntremesesCostAppend | script.js:1622-1634 | the entremeses cost of a concatenation is the sum of the parts |
| Pricing.BeverageLineNonNegative | script.js:1607-1614 | with non-negative prices and guests, no beverage entry subtracts from the drink cost |
| Pricing.DrinkCostNonNegative | script.js:1606-1616 | with non-negative prices and guests the drink cost is non-negative |
| Pricing.EntremesesCostNonNegative | script.js:1622-1634 | with non-negative prices and guests the entremeses cost is non-negative |
| Pricing.AdditionalCostClosedForm | script.js:1644-1661 | the services cost is 150·decorations + 100·waitstaff + 50·valet, within [0, 300]; other services and unticked boxes add nothing |
| Pricing.AssembleNonNegative | script.js:1589-1703 | non-negative sums, prices and rates give a breakdown with every money field non-negative |
| Pricing.BreakdownNonNegative | script.js:1582-1735 | for any selections, non-negative prices, guests and rates give non-negative money fields |
| Pricing.AssembleDeposit | script.js:1701-1703 | the deposit percentage is the selector's value, or 20 when there is no selector; the deposit is that percentage of the final total |
| Pricing.DepositBound | script.js:1703 | a percentage within [0, 100] of a non-negative total lies between 0 and the total |
| Pricing.DepositWithinTotal | script.js:1701-1703 | with a deposit rate within [0, 100], the deposit lies between 0 and the total |
| Pricing.ScenarioBuffetOnly | script.js:1582-1735 | a 50-guest $20 buffet with no extras: taxes 60 + 10, total 1070, deposit 214 |
| Pricing.ScenarioWithBeer | script.js:1606-1641 | the same event with $144 of beverages that include alcohol: alcohol tax 15.12, food taxes unchanged, total 1229.12 |
| Pricing.FindMedalla | script.js:948-986 | looking up Medalla finds the $72 alcoholic case |
| Pricing.FindSoftDrinks | script.js:948-986 | looking up the soft-drink case finds the $35 non-alcoholic row |
| Pricing.TwoMedallaCasesPriced | script.js:948-986 | two cases of Medalla cost 144 and count 2 alcoholic units |
| Pricing.ScenarioSoftDrinksTaxedWithBeer | script.js:1637-1641 | a soft-drink case beside one beer is taxed at the alcohol rate as well: the tax is 10.5% of 107 |
| Helpers.PhoneMaskKeepsDigits | script.js:291-301 | the mask adds only punctuation: the digits of the result are the first ten digits given, in order |
| Helpers.FormatPhoneNumberIdempotent | script.js:277-288 | masking an already masked number changes nothing |
| Helpers.FormatPhoneNumberLength | script.js:277-301 | a masked number is at most 14 characters, "(XXX) XXX-XXXX" |
| Helpers.StripNonDigitsAppend | script.js:279 | removing non-digits works piecewise on a concatenation |
| Helpers.StripThreeGroups | script.js:291-301 | three digit groups, each after punctuation, strip to the three groups joined |
| Selections.AppendNewKeyUnique | script.js:1219-1226 | adding a key the map does not hold keeps its keys distinct |
| Helpers.Hour12RoundTrip | script.js:1455-1464 | for hours 0..23 the 12-hour hour is in 1..12 and, with AM/PM, gives back the hour |
| Helpers.FormatTime12HourReadsBack | script.js:1455-1464 | for every "HH:MM" of a day the text is `String` of the 12-hour hour, ":" and the minutes as given, then " AM" exactly when the hour is before 12 and " PM" otherwise; the 12-hour hour (1..12, read back by `ParseIntOfIntToString`) with the marker gives back the hour |
| Helpers.FormatTime12HourExamples | script.js:1455-1464 | "00:30" shows as "12:30 AM" and "13:05" as "1:05 PM" |
| Helpers.ParseIntOfIntToString | script.js:1544-1555 | `parseInt` reads back every integer that string interpolation writes |
| Helpers.ClampGuestCount | script.js:1493-1498 | a manual count is clamped into [1, 500] and kept when already inside |
| Helpers.RoundToTenIsNearest | script.js:1505 | `Math.round(v / 10) * 10` is a multiple of ten within 5 of v, halves rounded up |
| Helpers.SyncGuestCountBounds | script.js:1482-1509 | after a manual entry, input and display agree within [1, 500] and the slider is on the nearest ten |
| Helpers.EditSliderValue | script.js:3002-3003 | the slider restored on edit lies within [10, 200] |
| Helpers.EditSliderValueOnStep | script.js:3002-3003 | it is a multiple of ten, and the nearest one for counts within [10, 200] |
| Helpers.CalculateTableCount | script.js:1558-1563 | with guests and seats positive, the least number of tables seating everyone; 0 otherwise |
| Helpers.SplitAround | script.js:1544 | splitting "t-u" on '-' with no dash in t or u gives exactly [t, u] |
| Helpers.ParseTableConfiguration | script.js:1540-1551 | an empty value gives two nulls; a parsed seat count is never 0 |
| Helpers.TableConfigurationRoundTrip | script.js:1540-1556 | parsing a formatted shape (no dash, non-empty) and positive seat count gives them back |
| Helpers.TableConfigurationFormatParse | script.js:1540-1556 | formatting what was parsed from "shape-n" gives the same string |
| Helpers.FoodFamiliesDisjoint | script.js:1442-1452 | no value is both buffet and breakfast; dessert is neither; a missing value is none of them |
| Ledger.FilterMembers | script.js:3125 | `filter` keeps exactly the accepted elements |
| Ledger.FilterLength | script.js:3125 | `filter` returns everything when all elements are accepted, and something shorter when one is rejected |
| Ledger.FilterAppend | script.js:3125 | filtering preserves relative order: it works piecewise on a concatenation |
| Ledger.DemoLoadKeepsExactlyDemoRecords | script.js:52-62 | in demo mode the loaded list holds exactly the stored records that are demo and well-formed |
| Ledger.InitialReservationsStable | script.js:52-62 | loading an already loaded list changes nothing |
| Ledger.TrimForRetry | script.js:3343-3345 | the retry keeps the last min(n, 50) records, a suffix of the list |
| Ledger.SaveKeepsNewest | script.js:3343-3345 | the trim after a failed first write never drops the record just pushed: it stays the last one |
| Ledger.FirstIndex | script.js:2670 | `find` stops at the first record with the id, or reports none |
| Ledger.FindById | script.js:2670 | the found record is in the list and has the id; there is none exactly when no record has it |
| Ledger.FirstIndexOnlyReadsIds | script.js:2670 | where `find` stops depends only on the ids |
| Ledger.ToggleDepositEffect | script.js:2669-2677 | toggling flips `depositPaid` of the first record with the id and changes nothing else; with no such record nothing changes |
| Ledger.ToggleDepositInvolution | script.js:2669-2677 | toggling twice restores the list |
| Ledger.RemoveByIdEffect | script.js:3123-3127 | removal drops every record with the id and keeps every other one; it shortens the list exactly when the id is present |
| Ledger.RemoveByIdAppend | script.js:3123-3127 | removal keeps the surviving records in their original order |
| Ledger.RemoveByIdIdempotent | script.js:3123-3127 | removing twice is removing once |
| Ledger.MissingFromForm | script.js:1747-1789 | a field key is reported exactly when its field is shown, required, not optional and blank after trimming |
| Ledger.AddOnce | script.js:1795-1799 | the key is present afterwards, and no other key is added |
| Ledger.ValidationGuestCount | script.js:1804-1810 | the count checked is never 0; it is flagged exactly when the manual count, or else the slider, is negative |
| Ledger.MissingFromFormEmptyIff | script.js:1747-1789 | the field pass reports nothing exactly when no shown, required, non-optional field is blank |
| Ledger.ValidateAcceptsIff | script.js:1743-1935 | nothing is missing exactly when the required fields are filled, "other" is named, the guest count is positive and, outside demo mode, the four buffet choices are made |
| Ledger.BuffetMissingEmptyIff | script.js:1816-1855 | the buffet check adds nothing exactly when rice, first protein, side and salad are chosen |
| Ledger.DemoModeIgnoresBuffet | script.js:1816-1855 | in demo mode the buffet choices do not affect validation |
| Ledger.CollectMissingFields | script.js:1747-1789 | the validation loop over the fields returns the missing keys in form order |
| Ledger.ServiceFlagsFor | script.js:1996-2003 | `additionalServices` lists each service in order with whether it was ticked |
| Ledger.SavedGuestCount | script.js:1994 | the saved guest count is the priced count when nonzero, and is never 0 |
| Ledger.StoredGuestCount | script.js:1994 | a new record stores the manual count, or else the slider value, which is also the count `calculatePrice` priced (script.js:1584); with both empty the price is for 0 guests and the record stores 50 |
| Ledger.NewReservationFacts | script.js:1947-2010 | a new record is unpaid, has a nonzero guest count, is well-formed once named, is kept by the demo load, and carries the price of its own selections |
| Ledger.EditThenSaveResetsDeposit | script.js:3114 | an edit followed by a save leaves the re-saved reservation unpaid even if the old one was paid; the old record is gone |
| Ledger.BalanceOfDeposit | script.js:2695-2697 | with the deposit the percentage of the total, the balance lies in [0, total]; paying lowers it by the deposit, to total × (1 − rate) |
| Ledger.DisplayedBalanceBounds | script.js:3639-3641 | the same for every priced breakdown with a deposit rate within [0, 100] |
| Ledger.ToggleMovesBalanceByDeposit | script.js:2674-2697 | a toggle keeps the pricing and moves the shown balance by exactly the deposit: down when marked paid, up when unmarked |
| Ledger.InvoiceServicesMatchPricing | script.js:3597-3611 | the invoice's services total equals the services cost `calculatePrice` charged |
| Ledger.InvoiceMatchesSavedPricing | script.js:3636 | the invoice subtotal of a saved reservation equals its stored pre-tax subtotal |
| Manager.MonthIndexInjective | script.js:2272-2289 | a month within 0..11 and a year are determined by their month count |
| Manager.ReservationManager.constructor | script.js:21-29 | empty list and selections; the given calendar month and year |
| Manager.ReservationManager.InitializeStorage | script.js:43-78 | the list becomes the loaded and filtered stored records; in demo mode, when the filter dropped a record, the list is saved and may be trimmed to its last 50 |
| Manager.ReservationManager.SaveReservationsToLocalStorage | script.js:3329-3352 | a failed first write trims the list to its last 50 records (`AfterLocalSave`); otherwise it is unchanged |
| Manager.ReservationManager.CalculatePrice | script.js:1582-1735 | returns exactly `Breakdown` of the inputs and the current selections |
| Manager.TallyBeverages | script.js:1602-1616 | the beverage loop yields the drink cost and the alcoholic count of the selection |
| Manager.TallyEntremeses | script.js:1619-1634 | the entremeses loop yields the entremeses cost |
| Manager.TallyServices | script.js:1653-1661 | the services loop yields the services cost |
| Manager.CollectFormQuantities | script.js:1094-1098 | the `forEach` over a modal's inputs collects `CollectQuantities` of them: the positive quantities, in input order |
| Manager.ValidateReservation | script.js:1743-1855 | the checks before a save return exactly the missing list `Validate` describes |
| Manager.ReservationManager.SaveBeverageSelectionsFromModal | script.js:1060-1106 | the stored beverage map is `BeverageSelectionsFrom` the inputs |
| Manager.ReservationManager.SaveEntremesesSelectionsFromModal | script.js:1205-1229 | the stored entremeses map is `EntremesesSelectionsFrom` the inputs |
| Manager.ReservationManager.SaveReservation | script.js:1739-2019 | returns the missing fields; with none, appends the unpaid new record, saves (trimming to the last 50 when the first write fails) and clears the selections; otherwise changes nothing |
| Manager.ReservationManager.ToggleDepositStatus | script.js:2669-2697 | with a record of that id, the list becomes `ToggleDeposit` and is saved (trimmed to the last 50 when the first write fails); the returned balance is the toggled record's new balance. With none, nothing changes |
| Manager.ReservationManager.DeleteReservation | script.js:3123-3127 | once confirmed, the list becomes `RemoveById` and is saved, trimmed to the last 50 when the first write fails; otherwise unchanged |
| Manager.ReservationManager.EditReservation | script.js:2951-3116 | returns the first record with the id and loads its selections; the list loses every record with that id and is saved, trimmed to the last 50 when the first write fails. With no such record nothing changes |
| Manager.ReservationManager.PreviousMonth | script.js:2272-2279 | the month stays within 0..11 and the month count drops by one |
| Manager.ReservationManager.NextMonth | script.js:2281-2289 | the month stays within 0..11 and the month count rises by one |
| Catalog.BeverageItems | script.js:948-986 | the 31-row beverage catalog; its prices are non-negative by `CatalogPricesNonNegative`, and its ids are the modal keys by `BeverageFormKeysAreCatalogIds` |
| Catalog.EntremesesItems | script.js:1145-1152 | the four-row entremeses catalog; prices non-negative by `CatalogPricesNonNegative`, keys priced by `EntremesesFormKeysInCatalog` |
| Selections.BeverageSelectionsFrom | script.js:1060-1106 | what the beverage modal saves; specified by `SavedBeverageSelectionsShape` and `SavedBeverageMimosaIff` |
| Selections.EntremesesSelectionsFrom | script.js:1205-1229 | what the entremeses modal saves; specified by `SavedEntremesesSelectionsShape` and `SavedEntremesesUnique` |
| Pricing.Breakdown | script.js:1582-1735 | `calculatePrice`; specified by `TotalDecomposition`, `TotalClosedForm`, `AlcoholTaxGate`, `BreakdownNonNegative` and `DepositWithinTotal` |
| Pricing.Assemble | script.js:1589-1703 | the breakdown from the four accumulated sums; specified by `AssembleDecomposition`, `AssembleDeposit` and `AssembleNonNegative` |
| Pricing.DrinkCost | script.js:1602-1616 | `drinkCost` after the beverage loop; specified by `DrinkCostExtend`, `DrinkCostAppend`, `DrinkCostPermutation` and `DrinkCostNonNegative`, and computed by `TallyBeverages` |
| Pricing.AlcoholicQty | script.js:1602-1616 | `alcoholicQty` after the beverage loop; specified by `AlcoholicQtyNonNegative` and `AlcoholicQtyPositiveIff` |
| Pricing.EntremesesCost | script.js:1619-1634 | `entremesesCost` after its loop; specified by `EntremesesCostExtend`, `EntremesesCostAppend` and `EntremesesCostNonNegative` |
| Pricing.AdditionalCost | script.js:1644-1661 | `additionalCost` after the services loop; specified by `AdditionalCostClosedForm` |
| Helpers.FormatTime12Hour | script.js:1455-1464 | `formatTime12Hour`; specified by `FormatTime12HourReadsBack` and `Hour12RoundTrip` |
| Helpers.FormatPhoneNumber | script.js:278-289 | `formatPhoneNumber`; specified by `PhoneMaskKeepsDigits`, `FormatPhoneNumberIdempotent` and `FormatPhoneNumberLength` |
| Helpers.FormatPhoneNumberString | script.js:292-301 | `formatPhoneNumberString`; specified by `PhoneMaskKeepsDigits` |
| Helpers.ParseInt | script.js:1584 | `parseInt` on decimal text; specified by `ParseIntOfIntToString` |
| Helpers.SyncGuestCountFromManual | script.js:1481-1509 | `syncGuestCountFromManual`; specified by `SyncGuestCountBounds` |
| Helpers.FormatTableConfiguration | script.js:1553-1556 | `formatTableConfiguration`; specified by `TableConfigurationRoundTrip` and `TableConfigurationFormatParse` |
| Helpers.IsBuffet | script.js:1442-1444 | `isBuffet`; with `IsBreakfast` and `IsDessert`, specified by `FoodFamiliesDisjoint` |
| Helpers.IsBreakfast | script.js:1446-1448 | `isBreakfast`; specified by `FoodFamiliesDisjoint` |
| Helpers.IsDessert | script.js:1450-1452 | `isDessert`; specified by `FoodFamiliesDisjoint` |
| Ledger.InitialReservations | script.js:43-78 | the list `initializeStorage` loads; specified by `DemoLoadKeepsExactlyDemoRecords` and `InitialReservationsStable` |
| Ledger.AfterLocalSave | script.js:3329-3352 | the list after `saveReservationsToLocalStorage`; specified by `TrimForRetry` and `SaveKeepsNewest` |
| Ledger.ToggleDeposit | script.js:2669-2674 | the list after a toggle; specified by `ToggleDepositEffect`, `ToggleDepositInvolution` and `ToggleMovesBalanceByDeposit` |
| Ledger.RemoveById | script.js:3125 | `filter(r => r.id !== id)`; specified by `RemoveByIdEffect`, `RemoveByIdAppend` and `RemoveByIdIdempotent` |
| Ledger.Validate | script.js:1743-1935 | the missing list `saveReservation` builds; specified by `ValidateAcceptsIff` and `DemoModeIgnoresBuffet`, and computed by `ValidateReservation` |
| Ledger.NewReservation | script.js:1947-2010 | the record `saveReservation` pushes; specified by `NewReservationFacts`, `StoredGuestCount` and `InvoiceMatchesSavedPricing` |
| Ledger.DisplayedBalance | script.js:2695-2697 | the balance on the card; specified by `BalanceOfDeposit`, `DisplayedBalanceBounds` and `ToggleMovesBalanceByDeposit` |

The code behaves as follows, and so does the model:

- There is no payment ledger, no custom beverage, no custom deposit amount and
  no alcohol city tax.
- The alcohol tax is charged on the whole drink cost whenever any alcoholic
  unit is present, soft drinks included.
- Editing removes the record and saving pushes a new one with
  `depositPaid: false`, so an edit always resets a paid deposit.
- The guest count check uses `parseInt(manual) || parseInt(slider) || 50`.
  It therefore never reports a count of 0, only a negative one.
- With two cases of Medalla on the 50-guest buffet, the code's total is
  1229.12.

## Left out

- DOM and event wiring:
  - modals, summaries, notifications, the dashboard, analytics, dark mode and
    the mobile menu;
  - every DOM read becomes a parameter: `PriceInputs`, `ReservationForm`,
    `ValidationInputs`, and the modal inputs as a key-to-number map.
- Storage transport:
  - localStorage, Firestore and the async save chain are I/O;
  - `InitializeStorage` takes the stored records as a parameter and models only
    the local-storage paths; the Firestore path is not part of this model;
  - every save goes through `saveReservationsToLocalStorage`, whose possible
    trim the mutators' contracts include; on the Firestore path a save that
    succeeds changes nothing in memory, which `firstWriteFails = false`
    describes;
  - a retry that also fails, and the fallback save in `saveReservation`, are
    not modelled.
- Dates, clocks and ids:
  - the timestamp id and `createdAt` become parameters or are dropped;
  - the constructor takes the current month and year as parameters.
- The PDF invoice (jsPDF, `fetch`) is left out. Only the subtotal and the
  balance arithmetic are kept.
- JavaScript floating point, `toFixed` and `Math.ceil` on floats are not
  modelled: money is exact `real` and counts are integers.
- Buffet, breakfast and dessert sub-selections are left out of the record:
  rice 2, protein 2, salad 2 and the checkbox extras are stored but never
  validated or priced. So are `clientEmail`, `companyName`, `breakfastType`,
  `dessertType` and `tableConfiguration`.
- Ledger.Reservation: records with a missing or `null` entry are not
  representable. The well-formedness filter therefore only checks the pricing
  object and the client name.
- Ledger.NewReservation: the record's tip and deposit percentages are taken from
  the form as given. When the deposit select is empty, `calculatePrice` prices
  a 0% deposit while the record stores 20; this difference is not modelled.
- Helpers.FormatTime12Hour: only the empty string and "HH:MM" values of a time
  input are modelled. The other strings `split(':')` could meet are not.
- Helpers.IsSpace: only space, tab, line feed, carriage return, vertical tab,
  form feed and no-break space count as white space. The other Unicode spaces
  that `trim` removes are not modelled.
- Selections.SavedBeverageSelectionsShape: uniqueness of the saved beverage keys
  is not proved. It follows from the 31 distinct input keys, as it does for
  entremeses, but it was too costly to discharge over the 31-element literal.
- Helpers.ParseInt: `parseInt` without a radix reads a "0x" prefix as
  hexadecimal; the model reads decimal digits only, so "0x1A" gives 0.
- Pricing.Breakdown: a price string that is present but not a number, or a
  slider value that reads as NaN, makes every money field of the source's
  breakdown NaN. NaN is not modelled: such a reading is 0 here.
- Manager.ReservationManager.ToggleDepositStatus: for a record without a
  pricing object the source throws while updating the card (script.js:2695);
  the model returns no balance instead.

/**
 * The fixed price lists of the venue: beverages, entremeses (appetizers),
 * the per-person items and the additional services.
 */
module Catalog {
  import opened Wrappers

  /** One row of the beverage list; `alcohol` puts its units in the alcohol-tax count. */
  datatype BeverageItem = BeverageItem(id: string, name: string, price: real, alcohol: bool)

  /** One row of the entremeses list. */
  datatype EntremesItem = EntremesItem(id: string, name: string, price: real)

  /** The beverage list, in the order the source declares it. */
  function BeverageItems(): seq<BeverageItem>
  {
    [ BeverageItem("soft-drinks", "Caja de Refrescos (24)", 35.0, false),
      BeverageItem("water", "Caja de Agua (24)", 20.0, false),
      BeverageItem("michelob", "Michelob", 72.0, true),
      BeverageItem("medalla", "Medalla", 72.0, true),
      BeverageItem("heineken", "Heineken", 72.0, true),
      BeverageItem("coors", "Coors Light", 72.0, true),
      BeverageItem("corona", "Corona", 72.0, true),
      BeverageItem("modelo", "Modelo", 72.0, true),
      BeverageItem("black-label-1l", "1 Litro Black Label", 65.0, true),
      BeverageItem("tito-1l", "1 Litro Tito Vodka", 45.0, true),
      BeverageItem("dewars-12-handle", "Gancho Dewars 12", 200.0, true),
      BeverageItem("dewars-handle", "Gancho Dewars Reg.", 150.0, true),
      BeverageItem("donq-cristal-handle", "Gancho Don Q Cristal", 75.0, true),
      BeverageItem("donq-limon-handle", "Gancho Don Q Limón", 75.0, true),
      BeverageItem("donq-passion-handle", "Gancho Don Q Passion", 75.0, true),
      BeverageItem("donq-coco-handle", "Gancho Don Q Coco", 75.0, true),
      BeverageItem("donq-naranja-handle", "Gancho Don Q Naranja", 75.0, true),
      BeverageItem("donq-oro-handle", "Gancho Don Q Oro", 75.0, true),
      BeverageItem("tito-handle", "Gancho Tito Vodka", 150.0, true),
      BeverageItem("sangria", "Jarra de Sangria", 25.0, true),
      BeverageItem("red-wine-25", "Botella de Vino Tinto ($25)", 25.0, true),
      BeverageItem("red-wine-30", "Botella de Vino Tinto ($30)", 30.0, true),
      BeverageItem("red-wine-35-1", "Botella de Vino Tinto ($35)", 35.0, true),
      BeverageItem("red-wine-35-2", "Botella de Vino Tinto ($35)", 35.0, true),
      BeverageItem("red-wine-40", "Botella de Vino Tinto ($40)", 40.0, true),
      BeverageItem("white-wine-25", "Botella de Vino Blanco ($25)", 25.0, true),
      BeverageItem("white-wine-30", "Botella de Vino Blanco ($30)", 30.0, true),
      BeverageItem("white-wine-35-1", "Botella de Vino Blanco ($35)", 35.0, true),
      BeverageItem("white-wine-35-2", "Botella de Vino Blanco ($35)", 35.0, true),
      BeverageItem("white-wine-40", "Botella de Vino Blanco ($40)", 40.0, true),
      BeverageItem("descorche", "Descorche", 0.0, false) ]
  }

  /** The entremeses list (quantity-priced items only). */
  function EntremesesItems(): seq<EntremesItem>
  {
    [ EntremesItem("bandeja-surtido", "Bandeja de Surtido", 100.0),
      EntremesItem("media-bandeja", "Media Bandeja de Surtidos", 50.0),
      EntremesItem("bandeja-cortes-frios", "Bandeja Cortes Frios", 150.0),
      EntremesItem("platos-entremeses", "Platos de Entremeses", 20.0) ]
  }

  /** Per-person items: a checked box charges this price once per guest. */
  const MimosaKey := "mimosa"
  const AsopaoKey := "asopao"
  const CevicheKey := "ceviche"
  const MimosaPerPerson: real := 3.95
  const AsopaoPerPerson: real := 3.00
  const CevichePerPerson: real := 3.95

  /** `beverages.find(b => b.id === id)`: the first row with that id, if any. */
  function FindBeverage(items: seq<BeverageItem>, id: string): (r: Option<BeverageItem>)
    ensures r.Some? ==> r.value in items && r.value.id == id
    ensures r.None? <==> forall i :: 0 <= i < |items| ==> items[i].id != id
  {
    if items == [] then None
    else if items[0].id == id then Some(items[0])
    else FindBeverage(items[1..], id)
  }

  /** The row `find` returns is the first one carrying the id. */
  lemma {:induction false} FindBeverageFirst(items: seq<BeverageItem>, i: nat, id: string)
    requires i < |items| && items[i].id == id
    requires forall j :: 0 <= j < i ==> items[j].id != id
    ensures FindBeverage(items, id) == Some(items[i])
    decreases i
  {
    if i > 0 {
      FindBeverageFirst(items[1..], i - 1, id);
    }
  }

  /** `entremeses.find(e => e.id === id)`: the first row with that id, if any. */
  function FindEntremes(items: seq<EntremesItem>, id: string): (r: Option<EntremesItem>)
    ensures r.Some? ==> r.value in items && r.value.id == id
    ensures r.None? <==> forall i :: 0 <= i < |items| ==> items[i].id != id
  {
    if items == [] then None
    else if items[0].id == id then Some(items[0])
    else FindEntremes(items[1..], id)
  }

  /** True when every row of a beverage list has a non-negative price. */
  predicate BeveragePricesNonNegative(beverages: seq<BeverageItem>)
  {
    forall i :: 0 <= i < |beverages| ==> beverages[i].price >= 0.0
  }

  /** True when every row of an entremeses list has a non-negative price. */
  predicate EntremesesPricesNonNegative(entremeses: seq<EntremesItem>)
  {
    forall i :: 0 <= i < |entremeses| ==> entremeses[i].price >= 0.0
  }

  /** No price in either catalog is negative. */
  lemma CatalogPricesNonNegative()
    ensures BeveragePricesNonNegative(BeverageItems())
    ensures EntremesesPricesNonNegative(EntremesesItems())
  {
  }

  /** The checkbox services of the reservation form, in the order the source checks them. */
  datatype Service = AudioVisual | Sillas | Mesas | Decorations | Waitstaff | Valet

  function AllServices(): seq<Service>
  {
    [AudioVisual, Sillas, Mesas, Decorations, Waitstaff, Valet]
  }

  /** Fixed price of a checked service; table cloths, chairs and tables are free. */
  function ServicePrice(s: Service): (p: real)
    ensures p >= 0.0
    ensures p > 0.0 <==> s in {Decorations, Waitstaff, Valet}
  {
    match s
    case AudioVisual => 0.0
    case Sillas => 0.0
    case Mesas => 0.0
    case Decorations => 150.0
    case Waitstaff => 100.0
    case Valet => 50.0
  }
}

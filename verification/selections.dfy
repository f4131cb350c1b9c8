/**
 * The beverage and entremeses selection maps and the normalisation the two
 * modals apply when they are saved.
 */
module Selections {
  import opened Catalog

  /**
   * A value stored in a selection map: a quantity read from a number input,
   * or the `true` of a per-person checkbox.
   */
  datatype SelValue = Qty(n: int) | Flag(b: bool)

  /** One `key: value` property of a selection object. */
  datatype Entry = Entry(key: string, value: SelValue)

  /** A selection object, as its entries in insertion order (`Object.entries`). */
  type Selection = seq<Entry>

  /** JavaScript's numeric reading of a stored value (`true` is 1, `false` is 0). */
  function ToNumber(v: SelValue): (n: int)
    ensures v.Qty? ==> n == v.n
    ensures v.Flag? ==> (n == 1 <==> v.b) && (n == 0 <==> !v.b)
  {
    match v
    case Qty(q) => q
    case Flag(b) => if b then 1 else 0
  }

  /** No key occurs twice, as in any JavaScript object. */
  predicate UniqueKeys(s: Selection)
  {
    forall i, j :: 0 <= i < j < |s| ==> s[i].key != s[j].key
  }

  /** Keys of the quantity inputs of the beverage modal, in the source's order. */
  function BeverageFormKeys(): seq<string>
  {
    [ "soft-drinks", "water", "michelob", "medalla", "heineken", "coors", "corona", "modelo",
      "black-label-1l", "tito-1l", "dewars-12-handle", "dewars-handle",
      "donq-cristal-handle", "donq-limon-handle", "donq-passion-handle", "donq-coco-handle",
      "donq-naranja-handle", "donq-oro-handle", "tito-handle", "sangria",
      "red-wine-25", "red-wine-30", "red-wine-35-1", "red-wine-35-2", "red-wine-40",
      "white-wine-25", "white-wine-30", "white-wine-35-1", "white-wine-35-2", "white-wine-40",
      "descorche" ]
  }

  /** Keys of the quantity inputs of the entremeses modal. */
  function EntremesesFormKeys(): seq<string>
  {
    ["bandeja-surtido", "media-bandeja", "bandeja-cortes-frios", "platos-entremeses"]
  }

  /**
   * `parseInt(el?.value) || 0` for the input of `key`: `form` holds the parsed
   * value of each input that exists and parses; any other input reads as 0.
   */
  function FormQty(form: map<string, int>, key: string): int
  {
    if key in form then form[key] else 0
  }

  /**
   * The quantity entries a modal collects from its inputs: one `Qty` entry per
   * key, in order, for exactly the inputs that read a positive quantity.
   */
  function CollectQuantities(keys: seq<string>, form: map<string, int>): (r: Selection)
    ensures forall e :: e in r ==> e.key in keys && FormQty(form, e.key) > 0 && e.value == Qty(FormQty(form, e.key))
    ensures forall k :: k in keys && FormQty(form, k) > 0 ==> Entry(k, Qty(FormQty(form, k))) in r
    ensures |r| <= |keys|
    decreases |keys|
  {
    if keys == [] then []
    else
      var rest := CollectQuantities(keys[..|keys| - 1], form);
      var k := keys[|keys| - 1];
      assert forall x :: x in keys ==> x in keys[..|keys| - 1] || x == k;
      if FormQty(form, k) > 0 then rest + [Entry(k, Qty(FormQty(form, k)))] else rest
  }

  /** What `saveBeverageSelectionsFromModal` stores. */
  function BeverageSelectionsFrom(form: map<string, int>, mimosaChecked: bool): Selection
  {
    CollectQuantities(BeverageFormKeys(), form)
      + (if mimosaChecked then [Entry(MimosaKey, Flag(true))] else [])
  }

  /** What `saveEntremesesSelectionsFromModal` stores. */
  function EntremesesSelectionsFrom(form: map<string, int>, asopaoChecked: bool, cevicheChecked: bool): Selection
  {
    CollectQuantities(EntremesesFormKeys(), form)
      + (if asopaoChecked then [Entry(AsopaoKey, Flag(true))] else [])
      + (if cevicheChecked then [Entry(CevicheKey, Flag(true))] else [])
  }

  /** Keys of a collected selection keep the order and the distinctness of the input keys. */
  lemma {:induction false} CollectQuantitiesUnique(keys: seq<string>, form: map<string, int>)
    requires forall i, j :: 0 <= i < j < |keys| ==> keys[i] != keys[j]
    ensures UniqueKeys(CollectQuantities(keys, form))
    decreases |keys|
  {
    if keys != [] {
      var init := keys[..|keys| - 1];
      CollectQuantitiesUnique(init, form);
      var k := keys[|keys| - 1];
      assert k !in init by {
        forall i | 0 <= i < |init| ensures init[i] != k {
          assert keys[i] == init[i];
        }
      }
    }
  }

  /** The beverage modal has one quantity input per catalog row, in catalog order. */
  lemma BeverageFormKeysAreCatalogIds()
    ensures |BeverageFormKeys()| == |BeverageItems()|
    ensures forall i :: 0 <= i < |BeverageItems()| ==> BeverageFormKeys()[i] == BeverageItems()[i].id
  {
    var keys, items := BeverageFormKeys(), BeverageItems();
    assert keys == seq(|items|, i requires 0 <= i < |items| => items[i].id);
  }

  /** Every quantity input of the beverage modal is a priced catalog row. */
  lemma BeverageFormKeysInCatalog(k: string)
    requires k in BeverageFormKeys()
    ensures FindBeverage(BeverageItems(), k).Some?
  {
    BeverageFormKeysAreCatalogIds();
    var i :| 0 <= i < |BeverageFormKeys()| && BeverageFormKeys()[i] == k;
    assert BeverageItems()[i].id == k;
  }

  /** Every quantity input of the entremeses modal is a priced catalog row. */
  lemma EntremesesFormKeysInCatalog(k: string)
    requires k in EntremesesFormKeys()
    ensures FindEntremes(EntremesesItems(), k).Some?
  {
  }

  /** The mimosa is a checkbox, not one of the quantity inputs. */
  lemma MimosaIsNoFormKey()
    ensures MimosaKey !in BeverageFormKeys()
  {
  }

  /**
   * Saving the beverage modal prunes zero quantities: every stored quantity is
   * positive and is the input's own value; the mimosa key is present exactly
   * when its box is checked, and then only as `true`.
   */
  lemma SavedBeverageSelectionsShape(form: map<string, int>, mimosaChecked: bool, e: Entry)
    requires e in BeverageSelectionsFrom(form, mimosaChecked)
    ensures e.value.Qty? ==> e.value.n > 0 && e.key in BeverageFormKeys() && e.value.n == FormQty(form, e.key)
    ensures e.key == MimosaKey <==> e.value.Flag?
    ensures e.key == MimosaKey ==> mimosaChecked && e.value == Flag(true)
  {
    MimosaIsNoFormKey();
  }

  /** The mimosa entry is stored iff its box is checked; no zero quantity is ever stored. */
  lemma SavedBeverageMimosaIff(form: map<string, int>, mimosaChecked: bool)
    ensures Entry(MimosaKey, Flag(true)) in BeverageSelectionsFrom(form, mimosaChecked) <==> mimosaChecked
    ensures forall e :: e in BeverageSelectionsFrom(form, mimosaChecked) ==> ToNumber(e.value) > 0
  {
    MimosaIsNoFormKey();
    assert Entry(MimosaKey, Flag(true)) !in CollectQuantities(BeverageFormKeys(), form);
  }

  /**
   * Saving the entremeses modal prunes zero quantities; asopao and ceviche are
   * present exactly when checked, and then only as `true`.
   */
  lemma SavedEntremesesSelectionsShape(form: map<string, int>, asopaoChecked: bool, cevicheChecked: bool)
    ensures Entry(AsopaoKey, Flag(true)) in EntremesesSelectionsFrom(form, asopaoChecked, cevicheChecked) <==> asopaoChecked
    ensures Entry(CevicheKey, Flag(true)) in EntremesesSelectionsFrom(form, asopaoChecked, cevicheChecked) <==> cevicheChecked
    ensures forall e :: e in EntremesesSelectionsFrom(form, asopaoChecked, cevicheChecked) ==> ToNumber(e.value) > 0
    ensures forall e :: e in EntremesesSelectionsFrom(form, asopaoChecked, cevicheChecked) && e.value.Qty? ==>
              e.key in EntremesesFormKeys() && e.value.n == FormQty(form, e.key)
  {
    var qs := CollectQuantities(EntremesesFormKeys(), form);
    assert AsopaoKey !in EntremesesFormKeys() && CevicheKey !in EntremesesFormKeys();
    assert Entry(AsopaoKey, Flag(true)) !in qs && Entry(CevicheKey, Flag(true)) !in qs;
  }

  /** Appending a key the object does not hold keeps its keys distinct. */
  lemma AppendNewKeyUnique(s: Selection, e: Entry)
    requires UniqueKeys(s)
    requires forall x :: x in s ==> x.key != e.key
    ensures UniqueKeys(s + [e])
  {
    forall i, j | 0 <= i < j < |s + [e]|
      ensures (s + [e])[i].key != (s + [e])[j].key
    {
      assert (s + [e])[i] == s[i];
      if j < |s| {
        assert (s + [e])[j] == s[j];
      } else {
        assert s[i] in s;
      }
    }
  }

  /** The saved entremeses map has distinct keys, as a JavaScript object must. */
  lemma SavedEntremesesUnique(form: map<string, int>, asopao: bool, ceviche: bool)
    ensures UniqueKeys(EntremesesSelectionsFrom(form, asopao, ceviche))
  {
    var ek := EntremesesFormKeys();
    CollectQuantitiesUnique(ek, form);
    var qs := CollectQuantities(ek, form);
    assert AsopaoKey !in ek && CevicheKey !in ek;
    var withAsopao := qs + (if asopao then [Entry(AsopaoKey, Flag(true))] else []);
    if asopao {
      AppendNewKeyUnique(qs, Entry(AsopaoKey, Flag(true)));
    } else {
      assert withAsopao == qs;
    }
    assert forall x :: x in withAsopao ==> x.key != CevicheKey;
    if ceviche {
      AppendNewKeyUnique(withAsopao, Entry(CevicheKey, Flag(true)));
    } else {
      assert withAsopao + [] == withAsopao;
    }
  }
}

/** The lot form: the lot record the registration tab edits, its
    single-field updater, the fixed medicine catalogue and the select
    handler that fills the dependent fields from it. */
module LotForm {
  import opened Optional

  /** The lot record as the application shell keeps it: seven text fields. */
  datatype LotData = LotData(
    medicineName: string,
    activeIngredient: string,
    seriesCode: string,
    mfgDate: string,
    expDate: string,
    healthReg: string,
    quantity: string)

  datatype LotField = MedicineName | ActiveIngredient | SeriesCode | MfgDate | ExpDate | HealthReg | Quantity

  function Field(d: LotData, f: LotField): string {
    match f
    case MedicineName => d.medicineName
    case ActiveIngredient => d.activeIngredient
    case SeriesCode => d.seriesCode
    case MfgDate => d.mfgDate
    case ExpDate => d.expDate
    case HealthReg => d.healthReg
    case Quantity => d.quantity
  }

  /** `{ ...prev, [field]: value }` */
  function WithField(d: LotData, f: LotField, v: string): (r: LotData)
    ensures Field(r, f) == v
    ensures forall g :: g != f ==> Field(r, g) == Field(d, g)
  {
    match f
    case MedicineName => d.(medicineName := v)
    case ActiveIngredient => d.(activeIngredient := v)
    case SeriesCode => d.(seriesCode := v)
    case MfgDate => d.(mfgDate := v)
    case ExpDate => d.(expDate := v)
    case HealthReg => d.(healthReg := v)
    case Quantity => d.(quantity := v)
  }

  function EmptyLot(): LotData {
    LotData("", "", "", "", "", "", "")
  }

  /** A catalogue entry: trade name, active ingredient, sanitary registration. */
  datatype Medicine = Medicine(nombre: string, principioActivo: string, registroSanitario: string)

  /** `medicamentos` */
  function Catalogue(): (meds: seq<Medicine>)
    ensures |meds| == 5
  {
    [ Medicine("Paracetamol 500 mg", "Paracetamol", "DIG-2025-0001"),
      Medicine("Amoxicilina 500 mg", "Amoxicilina", "DIG-2025-0002"),
      Medicine("Ibuprofeno 400 mg", "Ibuprofeno", "DIG-2025-0003"),
      Medicine("Azitromicina 500 mg", "Azitromicina", "DIG-2025-0004"),
      Medicine("Metformina 850 mg", "Metformina", "DIG-2025-0005") ]
  }

  predicate DistinctNames(meds: seq<Medicine>) {
    forall i, j :: 0 <= i < j < |meds| ==> meds[i].nombre != meds[j].nombre
  }

  /** No catalogue name is blank, and no two are equal, so a name picks one
      entry. */
  lemma CatalogueNamesDistinct()
    ensures DistinctNames(Catalogue())
    ensures forall i :: 0 <= i < |Catalogue()| ==> Catalogue()[i].nombre != ""
  {
    var c := Catalogue();
    assert c[0].nombre[0] == 'P' && c[1].nombre[1] == 'm' && c[2].nombre[0] == 'I';
    assert c[3].nombre[1] == 'z' && c[4].nombre[0] == 'M';
  }

  /** `meds.find((med) => med.nombre === name)`: the first entry with that
      name. */
  function Find(meds: seq<Medicine>, name: string): (r: Option<Medicine>)
    ensures r.None? <==> forall i :: 0 <= i < |meds| ==> meds[i].nombre != name
    ensures r.Some? ==> r.value in meds && r.value.nombre == name
  {
    if meds == [] then None
    else if meds[0].nombre == name then Some(meds[0])
    else Find(meds[1..], name)
  }

  /** With distinct names the match is the entry carrying the name. */
  lemma {:induction false} FindByName(meds: seq<Medicine>, i: nat)
    requires DistinctNames(meds) && i < |meds|
    ensures Find(meds, meds[i].nombre) == Some(meds[i])
  {
    if i > 0 {
      assert meds[0].nombre != meds[i].nombre;
      FindByName(meds[1..], i - 1);
    }
  }

  /** What the select handler leaves in the record: the three dependent
      fields from the matching entry (`selected?.x || ""`). */
  function AutoFill(d: LotData, value: string): (r: LotData)
    ensures r.medicineName == value || r.medicineName == ""
    ensures r.seriesCode == d.seriesCode && r.mfgDate == d.mfgDate
    ensures r.expDate == d.expDate && r.quantity == d.quantity
  {
    var selected := Find(Catalogue(), value);
    d.(medicineName := if selected.Some? then selected.value.nombre else "",
       activeIngredient := if selected.Some? then selected.value.principioActivo else "",
       healthReg := if selected.Some? then selected.value.registroSanitario else "")
  }

  /** Choosing a catalogue name copies that entry into the three dependent
      fields and leaves the other four fields as they were. */
  lemma AutoFillFromCatalogue(d: LotData, i: nat)
    requires i < |Catalogue()|
    ensures var m := Catalogue()[i];
            var r := AutoFill(d, m.nombre);
            && r.medicineName == m.nombre
            && r.activeIngredient == m.principioActivo
            && r.healthReg == m.registroSanitario
            && r.seriesCode == d.seriesCode && r.mfgDate == d.mfgDate
            && r.expDate == d.expDate && r.quantity == d.quantity
  {
    CatalogueNamesDistinct();
    FindByName(Catalogue(), i);
  }

  /** Any other value, the blank placeholder included, clears the three
      dependent fields and leaves the other four as they were. */
  lemma AutoFillClears(d: LotData, value: string)
    requires forall i :: 0 <= i < |Catalogue()| ==> Catalogue()[i].nombre != value
    ensures var r := AutoFill(d, value);
            && r.medicineName == "" && r.activeIngredient == "" && r.healthReg == ""
            && r.seriesCode == d.seriesCode && r.mfgDate == d.mfgDate
            && r.expDate == d.expDate && r.quantity == d.quantity
  {
  }

  /** The placeholder option "" is not a catalogue name. */
  lemma PlaceholderClears(d: LotData)
    ensures AutoFill(d, "") == d.(medicineName := "", activeIngredient := "", healthReg := "")
  {
    CatalogueNamesDistinct();
  }

  /** The lot record with its `onChange` updater, as the lot form sees it. */
  class LotDraft {
    var data: LotData

    constructor ()
      ensures data == EmptyLot()
    {
      data := EmptyLot();
    }

    /** `handleLotChange(field, value)`: one field changes. */
    method Change(field: LotField, value: string)
      modifies this
      ensures data == WithField(old(data), field, value)
    {
      data := WithField(data, field, value);
    }

    /** The medicine select's `onChange`: look the value up, then three
        successive single-field updates. */
    method SelectMedicine(value: string)
      modifies this
      ensures data == AutoFill(old(data), value)
    {
      var selected := Find(Catalogue(), value);
      Change(MedicineName, if selected.Some? then selected.value.nombre else "");
      Change(ActiveIngredient, if selected.Some? then selected.value.principioActivo else "");
      Change(HealthReg, if selected.Some? then selected.value.registroSanitario else "");
    }
  }
}

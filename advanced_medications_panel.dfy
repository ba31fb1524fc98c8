/** The inventory screen (src/components/AdvancedMedicationsPanel.tsx): the
    search and category filters, the category list, the row flags, and the
    form the handlers fill, submit and reset. `lower` is the library's
    lower-casing, passed in. */
module AdvancedMedicationsPanel {
  import opened Base
  import opened Seqs
  import opened Medications

  /** The search term matches the lower-cased name or active ingredient, and the
      category filter is off or equal to the medication's category. */
  predicate Matches(m: Medication, search: string, category: string, lower: string -> string)
  {
    && (Contains(lower(m.name), lower(search)) || Contains(lower(m.activeIngredient), lower(search)))
    && (category == "" || m.therapeuticCategory == category)
  }

  function MatchesFilters(search: string, category: string, lower: string -> string): Medication -> bool
  {
    (m: Medication) => Matches(m, search, category, lower)
  }

  /** `filteredMedications`. */
  function FilteredMedications(meds: seq<Medication>, search: string, category: string, lower: string -> string)
    : (r: seq<Medication>)
    ensures forall i :: 0 <= i < |r| ==> r[i] in meds && Matches(r[i], search, category, lower)
  {
    Filter(meds, MatchesFilters(search, category, lower))
  }

  /** A medication is listed exactly when it matches; with an empty search and no
      category filter every medication is listed, in order. */
  lemma FilteredMedicationsExact(meds: seq<Medication>, search: string, category: string,
                                 lower: string -> string, m: Medication)
    ensures m in FilteredMedications(meds, search, category, lower) <==>
      m in meds && (Contains(lower(m.name), lower(search)) || Contains(lower(m.activeIngredient), lower(search)))
      && (category == "" || m.therapeuticCategory == category)
    ensures lower("") == "" && search == "" && category == "" ==> FilteredMedications(meds, search, category, lower) == meds
  {
    if m in meds && Matches(m, search, category, lower) {
      FilterKeeps(meds, MatchesFilters(search, category, lower), m);
    }
    if lower("") == "" && search == "" && category == "" {
      forall x | x in meds ensures Matches(x, search, category, lower) {
        assert "" <= lower(x.name);
      }
      FilterAllPass(meds, MatchesFilters(search, category, lower));
    }
  }

  function CategoryOf(m: Medication): string { m.therapeuticCategory }
  predicate NonEmpty(s: string) { s != "" }

  /** `categories`: the distinct categories in first-occurrence order, blanks dropped. */
  function Categories(meds: seq<Medication>): seq<string>
  {
    Filter(Distinct(Map(meds, CategoryOf)), NonEmpty)
  }

  /** The category list holds each non-empty category that occurs, and only those. */
  lemma CategoriesExact(meds: seq<Medication>, c: string)
    ensures c in Categories(meds) <==> c != "" && exists m :: m in meds && m.therapeuticCategory == c
  {
    var all := Map(meds, CategoryOf);
    var d := Distinct(all);
    if c != "" && exists m :: m in meds && m.therapeuticCategory == c {
      var m :| m in meds && m.therapeuticCategory == c;
      var k :| 0 <= k < |meds| && meds[k] == m;
      assert all[k] == c;
      FilterKeeps(d, NonEmpty, c);
    }
    if c in Categories(meds) {
      var k :| 0 <= k < |all| && all[k] == c;
      assert meds[k] in meds;
    }
  }

  /** No category is listed twice. */
  lemma CategoriesDistinct(meds: seq<Medication>)
    ensures NoDuplicates(Categories(meds))
  {
    DistinctFilterCommute(Map(meds, CategoryOf), NonEmpty);
  }

  /** Categories are listed in the order they first occur among the medications. */
  lemma CategoriesInFirstOccurrenceOrder(meds: seq<Medication>)
    ensures var all := Map(meds, CategoryOf); var r := Categories(meds);
      forall i, j :: 0 <= i < j < |r| ==> IndexOf(all, r[i]) < IndexOf(all, r[j])
  {
    DistinctFilterOrder(Map(meds, CategoryOf), NonEmpty);
  }

  /** The background of a table row: the expiry warning wins over low stock. */
  datatype RowTone = ExpiredRow | LowStockRow | PlainRow

  function RowToneOf(m: Medication, today: string): (t: RowTone)
    ensures t == ExpiredRow <==> IsExpired(m, today)
    ensures t == LowStockRow <==> !IsExpired(m, today) && IsLowStock(m)
    ensures t == PlainRow <==> !IsExpired(m, today) && !IsLowStock(m)
  {
    if IsExpired(m, today) then ExpiredRow else if IsLowStock(m) then LowStockRow else PlainRow
  }

  // ------------------------------------------------------------------- form

  datatype MedicationForm = MedicationForm(
    name: string, activeIngredient: string, concentration: string, manufacturer: string,
    unitType: string, currentStock: int, reorderLevel: int, maxStock: int, unitPrice: int,
    supplier: string, expiryDate: string, batchNumber: string, therapeuticCategory: string,
    dosageInfo: string, notes: string)

  /** The empty form: unit `ml`, reorder level 10, maximum stock 100, everything else blank or zero. */
  const DefaultForm: MedicationForm :=
    MedicationForm("", "", "", "", "ml", 0, 10, 100, 0, "", "", "", "", "", "")

  /** The form `handleEdit` fills from a medication (a missing expiry reads as blank). */
  function FormOf(m: Medication): (f: MedicationForm)
    ensures f.name == m.name && f.activeIngredient == m.activeIngredient && f.concentration == m.concentration
    ensures f.manufacturer == m.manufacturer && f.unitType == m.unitType && f.currentStock == m.currentStock
    ensures f.reorderLevel == m.reorderLevel && f.maxStock == m.maxStock && f.unitPrice == m.unitPrice
    ensures f.supplier == m.supplier && f.expiryDate == m.expiryDate && f.batchNumber == m.batchNumber
    ensures f.therapeuticCategory == m.therapeuticCategory && f.dosageInfo == m.dosageInfo && f.notes == m.notes
  {
    MedicationForm(m.name, m.activeIngredient, m.concentration, m.manufacturer, m.unitType,
                   m.currentStock, m.reorderLevel, m.maxStock, m.unitPrice, m.supplier,
                   m.expiryDate, m.batchNumber, m.therapeuticCategory, m.dosageInfo, m.notes)
  }

  /** The row a form describes, under a given id and owner. */
  function RowOf(f: MedicationForm, id: string, userId: string): (m: Medication)
    ensures m.id == id && m.userId == userId
    ensures m.name == f.name && m.activeIngredient == f.activeIngredient && m.concentration == f.concentration
    ensures m.manufacturer == f.manufacturer && m.unitType == f.unitType && m.currentStock == f.currentStock
    ensures m.reorderLevel == f.reorderLevel && m.maxStock == f.maxStock && m.unitPrice == f.unitPrice
    ensures m.supplier == f.supplier && m.expiryDate == f.expiryDate && m.batchNumber == f.batchNumber
    ensures m.therapeuticCategory == f.therapeuticCategory && m.dosageInfo == f.dosageInfo && m.notes == f.notes
  {
    Medication(id, userId, f.name, f.activeIngredient, f.concentration, f.manufacturer, f.unitType,
               f.currentStock, f.reorderLevel, f.maxStock, f.unitPrice, f.supplier, f.expiryDate,
               f.batchNumber, f.therapeuticCategory, f.dosageInfo, f.notes)
  }

  /** Editing a medication and saving the form unchanged describes the same medication. */
  lemma FormRoundTrip(m: Medication, f: MedicationForm, id: string, userId: string)
    ensures RowOf(FormOf(m), m.id, m.userId) == m
    ensures FormOf(RowOf(f, id, userId)) == f
  {
  }

  /** Which hook operation a submit issued. */
  datatype Dispatch = NoCall | AddCall(row: Medication) | UpdateCall(id: string, changes: MedicationForm)

  const RequiredFieldsMessage: string := "Lütfen tüm zorunlu alanları doldurun"

  class InventoryScreen {
    const store: MedicationStore
    var form: MedicationForm
    var editingId: Option<string>
    var isOpen: bool

    constructor (store: MedicationStore)
      ensures this.store == store && form == DefaultForm && editingId == None && !isOpen
    {
      this.store := store;
      form, editingId, isOpen := DefaultForm, None, false;
    }

    /** `resetForm`: the defaults back, nothing being edited; the dialog flag stays. */
    method ResetForm()
      modifies this
      ensures form == DefaultForm && editingId == None && isOpen == old(isOpen)
    {
      form, editingId := DefaultForm, None;
    }

    /** `handleEdit`: the form takes the medication's fields and the dialog opens on it. */
    method HandleEdit(m: Medication)
      modifies this
      ensures form == FormOf(m) && editingId == Some(m.id) && isOpen
    {
      form, editingId, isOpen := FormOf(m), Some(m.id), true;
    }

    /** `handleSubmit`: a blank name or unit stops it; otherwise it updates the
        medication being edited, or adds a new one; success resets the form and
        closes the dialog, failure leaves both as they were. */
    method HandleSubmit(user: User, addReply: Reply<string>, updateReply: Reply<Medication>,
                        before: (string, string) -> bool)
      returns (toast: Toast, call: Dispatch)
      requires TotalPreorder(before)
      modifies this, store
      ensures old(form.name) == "" || old(form.unitType) == "" ==>
        toast == ToastError(RequiredFieldsMessage) && call == NoCall && unchanged(this) && unchanged(store)
      ensures old(form.name) != "" && old(form.unitType) != "" ==>
        call == (if old(editingId).Some? then UpdateCall(old(editingId).value, old(form)) else AddCall(RowOf(old(form), "", "")))
      ensures call.AddCall? ==>
        && (toast.ToastSuccess? <==> user.Some? && addReply.Ok?)
        && (toast.ToastSuccess? ==>
              toast.text == "İlaç eklendi"
              && store.medications == SortBy(old(store.medications) + [call.row.(id := addReply.value, userId := user.value)], MedicationName, before))
      ensures call.UpdateCall? ==>
        && (toast.ToastSuccess? <==> user.Some? && updateReply.Ok?)
        && (toast.ToastSuccess? ==>
              toast.text == "İlaç güncellendi"
              && store.medications == ReplaceById(old(store.medications), MedicationId, call.id, updateReply.value))
      ensures call != NoCall && toast.ToastSuccess? ==> form == DefaultForm && editingId == None && !isOpen
      ensures call != NoCall && !toast.ToastSuccess? ==>
        toast.ToastError? && form == old(form) && editingId == old(editingId) && isOpen == old(isOpen)
        && store.medications == old(store.medications)
      ensures store.usageHistory == old(store.usageHistory) && store.loading == old(store.loading)
    {
      if form.name == "" || form.unitType == "" {
        return ToastError(RequiredFieldsMessage), NoCall;
      }
      var res: Result<Medication>;
      if editingId.Some? {
        call := UpdateCall(editingId.value, form);
        res := store.UpdateMedication(user, editingId.value, updateReply);
        toast := ToastSuccess("İlaç güncellendi");
      } else {
        call := AddCall(RowOf(form, "", ""));
        res := store.AddMedication(user, RowOf(form, "", ""), addReply, before);
        toast := ToastSuccess("İlaç eklendi");
      }
      if res.Failure? {
        return ToastError(res.error), call;
      }
      ResetForm();
      isOpen := false;
    }
  }
}

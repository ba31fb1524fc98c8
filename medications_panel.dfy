/** The simple stock screen (src/components/MedicationsPanel.tsx): name search,
    the critical-stock count, and the form that asks the parent to add or
    update a medication. `lower` is the library's lower-casing, passed in. */
module MedicationsPanel {
  import opened Base
  import opened Seqs
  import opened Records

  predicate NameMatches(m: Medication, search: string, lower: string -> string)
  {
    Contains(lower(m.name), lower(search))
  }

  function NameFilter(search: string, lower: string -> string): Medication -> bool
  {
    (m: Medication) => NameMatches(m, search, lower)
  }

  /** `filteredMedications`. */
  function FilteredMedications(meds: seq<Medication>, search: string, lower: string -> string): (r: seq<Medication>)
    ensures forall i :: 0 <= i < |r| ==> r[i] in meds && Contains(lower(r[i].name), lower(search))
  {
    Filter(meds, NameFilter(search, lower))
  }

  /** A medication is listed exactly when its lower-cased name contains the
      lower-cased term; the empty term lists all of them, in order. */
  lemma FilteredMedicationsExact(meds: seq<Medication>, search: string, lower: string -> string, m: Medication)
    ensures m in FilteredMedications(meds, search, lower) <==> m in meds && Contains(lower(m.name), lower(search))
    ensures lower("") == "" && search == "" ==> FilteredMedications(meds, search, lower) == meds
  {
    if m in meds && NameMatches(m, search, lower) {
      FilterKeeps(meds, NameFilter(search, lower), m);
    }
    if lower("") == "" && search == "" {
      forall x | x in meds ensures NameMatches(x, search, lower) {
        assert "" <= lower(x.name);
      }
      FilterAllPass(meds, NameFilter(search, lower));
    }
  }

  /** `lowStockCount`: how many medications are at critical stock. */
  function LowStockCount(meds: seq<Medication>): (n: nat)
    ensures n <= |meds|
  {
    |CriticalStock(meds)|
  }

  /** The count is the number of medications at critical stock: none for no
      medications, and one more exactly when an appended medication is critical. */
  lemma LowStockCountSnoc(meds: seq<Medication>, m: Medication)
    ensures LowStockCount([]) == 0
    ensures LowStockCount(meds + [m]) == LowStockCount(meds) + (if m.stock <= m.criticalLimit then 1 else 0)
  {
    FilterConcat(meds, [m], IsCritical);
    assert [m][1..] == [];
  }

  /** The count is zero exactly when no medication is at critical stock. */
  lemma LowStockCountZero(meds: seq<Medication>)
    ensures LowStockCount(meds) == 0 <==> forall m :: m in meds ==> m.stock > m.criticalLimit
  {
    if exists m :: m in meds && m.stock <= m.criticalLimit {
      var m :| m in meds && m.stock <= m.criticalLimit;
      CriticalStockExact(meds, m);
    } else {
      FilterNonePass(meds, IsCritical);
    }
  }

  datatype StockForm = StockForm(name: string, stock: int, criticalLimit: int, unit: string)

  /** The blank form: critical limit 5, unit `adet`. */
  const BlankForm: StockForm := StockForm("", 0, 5, "adet")

  /** The callback a submit invokes on the parent. */
  datatype StockCall = OnAdd(form: StockForm) | OnUpdate(id: string, form: StockForm)

  class StockScreen {
    var form: StockForm
    var editingId: Option<string>
    var showForm: bool

    constructor ()
      ensures form == BlankForm && editingId == None && !showForm
    {
      form, editingId, showForm := BlankForm, None, false;
    }

    /** `handleSubmit`: update the medication being edited, or add one; then
        forget the edit, blank the form and hide it. */
    method HandleSubmit() returns (call: StockCall)
      modifies this
      ensures call == (if old(editingId).Some? then OnUpdate(old(editingId).value, old(form)) else OnAdd(old(form)))
      ensures form == BlankForm && editingId == None && !showForm
    {
      if editingId.Some? {
        call := OnUpdate(editingId.value, form);
        editingId := None;
      } else {
        call := OnAdd(form);
      }
      form := BlankForm;
      showForm := false;
    }

    /** `startEdit`: the form takes the medication's four fields and opens on it. */
    method StartEdit(m: Medication)
      modifies this
      ensures form == StockForm(m.name, m.stock, m.criticalLimit, m.unit)
      ensures editingId == Some(m.id) && showForm
    {
      editingId := Some(m.id);
      form := StockForm(m.name, m.stock, m.criticalLimit, m.unit);
      showForm := true;
    }

    /** `cancelEdit`. */
    method CancelEdit()
      modifies this
      ensures form == BlankForm && editingId == None && !showForm
    {
      editingId, form, showForm := None, BlankForm, false;
    }
  }
}

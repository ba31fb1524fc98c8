/** The medication inventory hook (src/hooks/useMedications.ts): the stock and
    expiry rules, and the medication and usage-history lists it keeps. */
module Medications {
  import opened Base
  import opened Seqs

  /** An inventory item. An empty `expiryDate` stands for a missing expiry date;
      dates are ISO `YYYY-MM-DD` strings. */
  datatype Medication = Medication(
    id: string,
    userId: string,
    name: string,
    activeIngredient: string,
    concentration: string,
    manufacturer: string,
    unitType: string,
    currentStock: int,
    reorderLevel: int,
    maxStock: int,
    unitPrice: int,
    supplier: string,
    expiryDate: string,
    batchNumber: string,
    therapeuticCategory: string,
    dosageInfo: string,
    notes: string)

  /** One entry of the usage history. */
  datatype UsageRecord = UsageRecord(id: string, userId: string, medicationId: string, quantityUsed: int)

  function MedicationId(m: Medication): string { m.id }
  function MedicationName(m: Medication): string { m.name }

  /** Low stock: at or below the reorder level (the boundary counts). */
  predicate IsLowStock(m: Medication)
  {
    m.currentStock <= m.reorderLevel
  }

  /** Expired on `today`: an expiry date is present and is not after today,
      comparing the ISO strings character by character. */
  predicate IsExpired(m: Medication, today: string)
  {
    m.expiryDate != "" && StringLe(m.expiryDate, today)
  }

  function ExpiredOn(today: string): Medication -> bool
  {
    (m: Medication) => IsExpired(m, today)
  }

  /** `getLowStockMedications`. */
  function LowStockMedications(meds: seq<Medication>): (r: seq<Medication>)
    ensures forall i :: 0 <= i < |r| ==> IsLowStock(r[i]) && r[i] in meds
  {
    Filter(meds, IsLowStock)
  }

  /** `getExpiredMedications` for the given day. */
  function ExpiredMedications(meds: seq<Medication>, today: string): (r: seq<Medication>)
    ensures forall i :: 0 <= i < |r| ==> r[i].expiryDate != "" && StringLe(r[i].expiryDate, today) && r[i] in meds
  {
    Filter(meds, ExpiredOn(today))
  }

  /** Both lists hold exactly the medications meeting their test, in list order. */
  lemma InventoryAlertsExact(meds: seq<Medication>, today: string, m: Medication, extra: seq<Medication>)
    ensures m in LowStockMedications(meds) <==> m in meds && m.currentStock <= m.reorderLevel
    ensures m in ExpiredMedications(meds, today) <==> m in meds && m.expiryDate != "" && StringLe(m.expiryDate, today)
    ensures LowStockMedications(meds + extra) == LowStockMedications(meds) + LowStockMedications(extra)
    ensures ExpiredMedications(meds + extra, today) == ExpiredMedications(meds, today) + ExpiredMedications(extra, today)
  {
    if m in meds && IsLowStock(m) {
      FilterKeeps(meds, IsLowStock, m);
    }
    if m in meds && IsExpired(m, today) {
      FilterKeeps(meds, ExpiredOn(today), m);
    }
    FilterConcat(meds, extra, IsLowStock);
    FilterConcat(meds, extra, ExpiredOn(today));
  }

  /** A missing expiry never counts, and an expired medication stays expired on
      every later day. */
  lemma ExpiryIsMonotone(m: Medication, today: string, later: string)
    requires StringLe(today, later)
    ensures m.expiryDate == "" ==> !IsExpired(m, today)
    ensures IsExpired(m, today) ==> IsExpired(m, later)
  {
    if IsExpired(m, today) {
      StringLeTransitive(m.expiryDate, today, later);
    }
  }

  /** The stock `recordUsage` writes back: what was read less the quantity used,
      clamped at zero. */
  function StockAfterUsage(stock: int, quantityUsed: int): (n: int)
    ensures n >= 0 && n >= stock - quantityUsed
    ensures n == 0 || n == stock - quantityUsed
  {
    if stock - quantityUsed > 0 then stock - quantityUsed else 0
  }

  /** The state `useMedications` keeps. */
  class MedicationStore {
    var medications: seq<Medication>
    var usageHistory: seq<UsageRecord>
    var loading: bool
    var error: Option<string>

    constructor ()
      ensures medications == [] && usageHistory == [] && !loading && error == None
    {
      medications, usageHistory, loading, error := [], [], false, None;
    }

    /** `fetchMedications`: nothing without a user; otherwise the owner's rows
        replace the list, or the error is recorded and the list kept. */
    method FetchMedications(user: User, reply: Reply<seq<Medication>>) returns (query: Option<seq<Condition>>)
      modifies this
      ensures user.None? ==> query == None && unchanged(this)
      ensures user.Some? ==> query == Some(OwnerScope(user.value)) && !loading && usageHistory == old(usageHistory)
      ensures user.Some? && reply.Ok? ==> medications == reply.value && error == None
      ensures user.Some? && reply.Err? ==> medications == old(medications) && error == Some(reply.message)
    {
      if user.None? {
        return None;
      }
      loading, error := true, None;
      query := Some(OwnerScope(user.value));
      if reply.Ok? {
        medications := reply.value;
      } else {
        error := Some(reply.message);
      }
      loading := false;
    }

    /** `addMedication`: the stored row joins the list, which is then sorted by
        name with the locale order `before`. */
    method AddMedication(user: User, data: Medication, reply: Reply<string>, before: (string, string) -> bool)
      returns (res: Result<Medication>)
      requires TotalPreorder(before)
      modifies this
      ensures user.None? ==> res == Failure(NotAuthenticated) && unchanged(this)
      ensures user.Some? && reply.Err? ==>
        res == Failure(reply.message) && error == Some(reply.message)
        && medications == old(medications) && usageHistory == old(usageHistory) && loading == old(loading)
      ensures user.Some? && reply.Ok? ==>
        var row := data.(id := reply.value, userId := user.value);
        && res == Success(row)
        && medications == SortBy(old(medications) + [row], MedicationName, before)
        && SortedBy(medications, MedicationName, before)
        && multiset(medications) == multiset(old(medications)) + multiset{row}
        && usageHistory == old(usageHistory) && error == old(error) && loading == old(loading)
    {
      if user.None? {
        return Failure(NotAuthenticated);
      }
      if reply.Err? {
        error := Some(reply.message);
        return Failure(reply.message);
      }
      var row := data.(id := reply.value, userId := user.value);
      medications := SortBy(medications + [row], MedicationName, before);
      res := Success(row);
    }

    /** `updateMedication`: the items with the id are replaced by the row the
        store returns; the length and every other item stay. */
    method UpdateMedication(user: User, id: string, reply: Reply<Medication>) returns (res: Result<Medication>)
      modifies this
      ensures user.None? ==> res == Failure(NotAuthenticated) && unchanged(this)
      ensures user.Some? && reply.Err? ==>
        res == Failure(reply.message) && error == Some(reply.message)
        && medications == old(medications) && usageHistory == old(usageHistory) && loading == old(loading)
      ensures user.Some? && reply.Ok? ==>
        res == Success(reply.value) && medications == ReplaceById(old(medications), MedicationId, id, reply.value)
        && usageHistory == old(usageHistory) && error == old(error) && loading == old(loading)
    {
      if user.None? {
        return Failure(NotAuthenticated);
      }
      if reply.Err? {
        error := Some(reply.message);
        return Failure(reply.message);
      }
      medications := ReplaceById(medications, MedicationId, id, reply.value);
      res := Success(reply.value);
    }

    /** `deleteMedication`: every item with the id is dropped, the rest keep their order. */
    method DeleteMedication(user: User, id: string, reply: Ack) returns (failure: Option<string>)
      modifies this
      ensures user.None? ==> failure == Some(NotAuthenticated) && unchanged(this)
      ensures user.Some? && reply.Rejected? ==>
        failure == Some(reply.message) && error == Some(reply.message)
        && medications == old(medications) && usageHistory == old(usageHistory) && loading == old(loading)
      ensures user.Some? && reply.Accepted? ==>
        failure == None && medications == RemoveById(old(medications), MedicationId, id)
        && usageHistory == old(usageHistory) && error == old(error) && loading == old(loading)
    {
      if user.None? {
        return Some(NotAuthenticated);
      }
      if reply.Rejected? {
        error := Some(reply.message);
        return Some(reply.message);
      }
      medications := RemoveById(medications, MedicationId, id);
      failure := None;
    }

    /** `recordUsage`. Three requests in sequence, not atomic: the history
        insert, the read of the stored stock, and the stock write through
        `updateMedication`. `persisted` tells whether the history row is stored;
        `requestedStock` is the clamped stock sent in the write. The entry is
        prepended to the local history only once the stock write has succeeded. */
    method RecordUsage(user: User, usage: UsageRecord, historyReply: Reply<string>,
                       stockReply: Reply<int>, updateReply: Reply<Medication>)
      returns (res: Result<UsageRecord>, requestedStock: Option<int>, persisted: bool)
      modifies this
      ensures user.None? ==> res == Failure(NotAuthenticated) && requestedStock == None && !persisted && unchanged(this)
      ensures user.Some? ==> persisted == historyReply.Ok?
      ensures user.Some? ==>
        requestedStock == (if historyReply.Ok? && stockReply.Ok? then Some(StockAfterUsage(stockReply.value, usage.quantityUsed)) else None)
      ensures user.Some? && !(historyReply.Ok? && stockReply.Ok? && updateReply.Ok?) ==>
        var message := if historyReply.Err? then historyReply.message
                       else if stockReply.Err? then stockReply.message
                       else updateReply.message;
        res == Failure(message) && error == Some(message)
        && medications == old(medications) && usageHistory == old(usageHistory) && loading == old(loading)
      ensures user.Some? && historyReply.Ok? && stockReply.Ok? && updateReply.Ok? ==>
        var entry := usage.(id := historyReply.value, userId := user.value);
        && res == Success(entry)
        && usageHistory == [entry] + old(usageHistory)
        && medications == ReplaceById(old(medications), MedicationId, usage.medicationId, updateReply.value)
        && error == old(error) && loading == old(loading)
    {
      requestedStock, persisted := None, false;
      if user.None? {
        return Failure(NotAuthenticated), requestedStock, persisted;
      }
      if historyReply.Err? {
        error := Some(historyReply.message);
        return Failure(historyReply.message), requestedStock, persisted;
      }
      persisted := true;
      var entry := usage.(id := historyReply.value, userId := user.value);
      if stockReply.Err? {
        error := Some(stockReply.message);
        return Failure(stockReply.message), requestedStock, persisted;
      }
      requestedStock := Some(StockAfterUsage(stockReply.value, usage.quantityUsed));
      var updated := UpdateMedication(user, usage.medicationId, updateReply);
      if updated.Failure? {
        error := Some(updated.error);
        return Failure(updated.error), requestedStock, persisted;
      }
      usageHistory := [entry] + usageHistory;
      res := Success(entry);
    }
  }
}

/** The record shapes of src/types/index.ts that the dashboard and the simple
    panels work on, and the two aggregates several of them share. */
module Records {
  import opened Seqs

  /** A stock item of the simple inventory list. */
  datatype Medication = Medication(id: string, name: string, stock: int, criticalLimit: int, unit: string)

  datatype Client = Client(id: string, name: string, phone: string, address: string, totalAnimals: int, debt: int)

  /** A medication dispensed during a visit. */
  datatype VisitMedication = VisitMedication(medicationId: string, quantity: int)

  /** A field visit; `date` is an ISO timestamp. */
  datatype Visit = Visit(
    id: string, clientId: string, clientName: string, date: string,
    summary: string, totalCost: int, medications: seq<VisitMedication>)

  function VisitCost(v: Visit): int { v.totalCost }
  function ClientDebt(c: Client): int { c.debt }
  function ClientAnimalCount(c: Client): int { c.totalAnimals }
  function ClientId(c: Client): string { c.id }

  /** Critical stock: at or below the critical limit (the boundary counts). */
  predicate IsCritical(m: Medication)
  {
    m.stock <= m.criticalLimit
  }

  /** The medications at critical stock, in list order. */
  function CriticalStock(meds: seq<Medication>): (r: seq<Medication>)
    ensures forall i :: 0 <= i < |r| ==> r[i] in meds && r[i].stock <= r[i].criticalLimit
  {
    Filter(meds, IsCritical)
  }

  /** A medication is at critical stock exactly when it is listed. */
  lemma CriticalStockExact(meds: seq<Medication>, m: Medication)
    ensures m in CriticalStock(meds) <==> m in meds && m.stock <= m.criticalLimit
  {
    if m in meds && IsCritical(m) {
      FilterKeeps(meds, IsCritical, m);
    }
  }

  /** Revenue: the summed `totalCost` of some visits. */
  function Revenue(visits: seq<Visit>): int
  {
    Sum(visits, VisitCost)
  }

  /** Revenue adds up over concatenation, is zero for no visits, and is never
      negative when no visit has a negative cost. */
  lemma RevenueFacts(a: seq<Visit>, b: seq<Visit>)
    ensures Revenue([]) == 0
    ensures Revenue(a + b) == Revenue(a) + Revenue(b)
    ensures (forall v :: v in a ==> v.totalCost >= 0) ==> Revenue(a) >= 0
  {
    SumConcat(a, b, VisitCost);
    if forall v :: v in a ==> v.totalCost >= 0 {
      SumNonNegative(a, VisitCost);
    }
  }
}

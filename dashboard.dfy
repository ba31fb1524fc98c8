/** The overview screen (src/components/Dashboard.tsx): its four figures, the
    empty-state test and the recent-visit list, all computed from its inputs. */
module Dashboard {
  import opened Seqs
  import opened Records

  /** Pending collections: the clients' debts summed. */
  function TotalDebt(clients: seq<Client>): int
  {
    Sum(clients, ClientDebt)
  }

  /** The animals of all clients. */
  function TotalAnimals(clients: seq<Client>): int
  {
    Sum(clients, ClientAnimalCount)
  }

  /** The "critical stock" figure counts these. */
  function LowStock(meds: seq<Medication>): seq<Medication>
  {
    CriticalStock(meds)
  }

  /** Income: the revenue of all visits. */
  function TotalIncome(visits: seq<Visit>): int
  {
    Revenue(visits)
  }

  /** The welcome state is shown when there is no client, medication or visit. */
  predicate IsEmpty(clients: seq<Client>, meds: seq<Medication>, visits: seq<Visit>)
  {
    |clients| == 0 && |meds| == 0 && |visits| == 0
  }

  /** `visits.slice(0, 4)`: the first four visits, or all of them when fewer. */
  function RecentVisits(visits: seq<Visit>): (r: seq<Visit>)
    ensures |r| <= 4 && r <= visits
    ensures |r| == 4 || r == visits
  {
    if |visits| <= 4 then visits else visits[..4]
  }

  /** An empty practice shows zero everywhere. */
  lemma EmptyDashboard(clients: seq<Client>, meds: seq<Medication>, visits: seq<Visit>)
    ensures IsEmpty(clients, meds, visits) ==>
      TotalDebt(clients) == 0 && TotalAnimals(clients) == 0 && TotalIncome(visits) == 0
      && LowStock(meds) == [] && RecentVisits(visits) == []
  {
  }

  /** With no negative debts the pending collections are never negative, and
      they are zero exactly when no client owes anything. */
  lemma TotalDebtSign(clients: seq<Client>)
    requires forall c :: c in clients ==> c.debt >= 0
    ensures TotalDebt(clients) >= 0
    ensures TotalDebt(clients) == 0 <==> forall c :: c in clients ==> c.debt == 0
  {
    SumNonNegative(clients, ClientDebt);
    if exists c :: c in clients && c.debt != 0 {
      var c :| c in clients && c.debt != 0;
      var i :| 0 <= i < |clients| && clients[i] == c;
      SumConcat(clients[..i], clients[i..], ClientDebt);
      assert clients == clients[..i] + clients[i..];
      assert forall x :: x in clients[..i] ==> x in clients;
      assert forall x :: x in clients[i..][1..] ==> x in clients;
      SumNonNegative(clients[..i], ClientDebt);
      SumNonNegative(clients[i..][1..], ClientDebt);
    }
    if forall c :: c in clients ==> c.debt == 0 {
      SumZero(clients, ClientDebt);
    }
  }
}

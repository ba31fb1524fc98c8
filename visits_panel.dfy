/** The field-visit screen (src/components/VisitsPanel.tsx): the search filter,
    the grouping of the listed visits under their date labels, the revenue
    line, and the new-visit form. `lower` is the library's lower-casing and
    `dateKey` the locale date label of an ISO timestamp, both passed in. */
module VisitsPanel {
  import opened Base
  import opened Seqs
  import opened Records

  /** The lower-cased search term occurs in the lower-cased client name or summary. */
  predicate VisitMatches(v: Visit, search: string, lower: string -> string)
  {
    Contains(lower(v.clientName), lower(search)) || Contains(lower(v.summary), lower(search))
  }

  function MatchesSearch(search: string, lower: string -> string): Visit -> bool
  {
    (v: Visit) => VisitMatches(v, search, lower)
  }

  /** `filteredVisits`. */
  function FilteredVisits(visits: seq<Visit>, search: string, lower: string -> string): (r: seq<Visit>)
    ensures |r| <= |visits|
    ensures forall i :: 0 <= i < |r| ==> r[i] in visits && VisitMatches(r[i], search, lower)
  {
    Filter(visits, MatchesSearch(search, lower))
  }

  /** A visit is listed exactly when it matches; an empty search lists every visit, in order. */
  lemma FilteredVisitsExact(visits: seq<Visit>, search: string, lower: string -> string, v: Visit)
    ensures v in FilteredVisits(visits, search, lower) <==>
      v in visits && (Contains(lower(v.clientName), lower(search)) || Contains(lower(v.summary), lower(search)))
    ensures lower("") == "" && search == "" ==> FilteredVisits(visits, search, lower) == visits
  {
    if v in visits && VisitMatches(v, search, lower) {
      FilterKeeps(visits, MatchesSearch(search, lower), v);
    }
    if lower("") == "" && search == "" {
      forall x | x in visits ensures VisitMatches(x, search, lower) {
        assert "" <= lower(x.clientName);
      }
      FilterAllPass(visits, MatchesSearch(search, lower));
    }
  }

  /** `totalRevenue`: the summed cost of the listed visits, not of all visits. */
  function TotalRevenue(visits: seq<Visit>, search: string, lower: string -> string): int
  {
    Revenue(FilteredVisits(visits, search, lower))
  }

  /** The revenue line counts every visit when the search is empty, and never
      exceeds the revenue of all visits when no cost is negative. */
  lemma TotalRevenueBounds(visits: seq<Visit>, search: string, lower: string -> string)
    ensures lower("") == "" && search == "" ==> TotalRevenue(visits, search, lower) == Revenue(visits)
    ensures (forall v :: v in visits ==> v.totalCost >= 0) ==>
      0 <= TotalRevenue(visits, search, lower) <= Revenue(visits)
  {
    FilteredVisitsExact(visits, search, lower, Visit("", "", "", "", "", 0, []));
    if forall v :: v in visits ==> v.totalCost >= 0 {
      SumFilterAtMost(visits, MatchesSearch(search, lower), VisitCost);
      SumNonNegative(FilteredVisits(visits, search, lower), VisitCost);
    }
  }

  // ------------------------------------------------------------- grouping

  /** The date label a visit is filed under. */
  function VisitDate(dateKey: string -> string): Visit -> string
  {
    (v: Visit) => dateKey(v.date)
  }

  /** The accumulated dictionary: its labels in insertion order (the order in
      which the screen lists the groups) and the visits filed under each. */
  datatype Grouping = Grouping(keys: seq<string>, groups: map<string, seq<Visit>>)

  /** What the `groupedVisits` reduce has built after the given visits: a new
      label gets an empty group first, then the visit is pushed onto its group. */
  function Grouped(visits: seq<Visit>, dateKey: string -> string): (r: Grouping)
    ensures forall k :: k in r.groups <==> k in r.keys
  {
    if visits == [] then Grouping([], map[])
    else
      var g := Grouped(visits[..|visits| - 1], dateKey);
      var v := visits[|visits| - 1];
      var k := dateKey(v.date);
      if k in g.groups then Grouping(g.keys, g.groups[k := g.groups[k] + [v]])
      else Grouping(g.keys + [k], g.groups[k := [v]])
  }

  /** The labels are the distinct date labels in first-occurrence order, and
      each group is exactly the visits with that label, in list order. */
  lemma {:induction false} GroupedFacts(visits: seq<Visit>, dateKey: string -> string)
    ensures Grouped(visits, dateKey).keys == Distinct(Map(visits, VisitDate(dateKey)))
    ensures forall k :: k in Grouped(visits, dateKey).groups ==>
      Grouped(visits, dateKey).groups[k] == Filter(visits, KeyIs(VisitDate(dateKey), k))
  {
    if visits != [] {
      var n := |visits| - 1;
      var front, v := visits[..n], visits[n];
      assert visits == front + [v];
      GroupedFacts(front, dateKey);
      var key := VisitDate(dateKey);
      var g := Grouped(front, dateKey);
      var k := dateKey(v.date);
      assert key(v) == k;
      MapConcat(front, [v], key);
      DistinctSnoc(Map(front, key), k);
      forall j | j in Grouped(visits, dateKey).groups
        ensures Grouped(visits, dateKey).groups[j] == Filter(visits, KeyIs(key, j))
      {
        if j !in g.groups {
          forall x | x in front ensures dateKey(x.date) != j {
            var i :| 0 <= i < |front| && front[i] == x;
            assert Map(front, key)[i] == key(x);
          }
        }
        GroupedStep(front, v, dateKey, j);
      }
    }
  }

  /** One step of the reduce, for one label: appending a visit to `front`
      extends the group of its own label and leaves the others alone. */
  lemma GroupedStep(front: seq<Visit>, v: Visit, dateKey: string -> string, j: string)
    requires j in Grouped(front, dateKey).groups ==>
      Grouped(front, dateKey).groups[j] == Filter(front, KeyIs(VisitDate(dateKey), j))
    requires j !in Grouped(front, dateKey).groups ==> forall x :: x in front ==> dateKey(x.date) != j
    requires j in Grouped(front + [v], dateKey).groups
    ensures Grouped(front + [v], dateKey).groups[j] == Filter(front + [v], KeyIs(VisitDate(dateKey), j))
  {
    var key := VisitDate(dateKey);
    var g := Grouped(front, dateKey);
    var k := dateKey(v.date);
    assert (front + [v])[..|front|] == front;
    assert (front + [v])[|front|] == v;
    FilterSnoc(front, v, KeyIs(key, j));
    assert KeyIs(key, j)(v) == (k == j);
    if j !in g.groups {
      forall x | x in front ensures !KeyIs(key, j)(x) {
        assert KeyIs(key, j)(x) == (key(x) == j);
      }
      FilterNonePass(front, KeyIs(key, j));
    }
  }

  /** Every listed visit sits in exactly one group: the one of its own label. */
  lemma VisitInOneGroup(visits: seq<Visit>, dateKey: string -> string, v: Visit, k: string)
    requires v in visits
    ensures dateKey(v.date) in Grouped(visits, dateKey).groups
    ensures v in Grouped(visits, dateKey).groups[dateKey(v.date)]
    ensures k in Grouped(visits, dateKey).groups && v in Grouped(visits, dateKey).groups[k] ==> k == dateKey(v.date)
  {
    GroupedFacts(visits, dateKey);
    var key := VisitDate(dateKey);
    var i :| 0 <= i < |visits| && visits[i] == v;
    assert Map(visits, key)[i] == dateKey(v.date);
    assert KeyIs(key, dateKey(v.date))(v);
    FilterKeeps(visits, KeyIs(key, dateKey(v.date)), v);
    if k in Grouped(visits, dateKey).groups && v in Grouped(visits, dateKey).groups[k] {
      var s := Filter(visits, KeyIs(key, k));
      var j :| 0 <= j < |s| && s[j] == v;
      assert KeyIs(key, k)(s[j]);
    }
  }

  /** The size of the group under a label (zero for an unknown label). */
  function GroupSize(groups: map<string, seq<Visit>>): string -> int
  {
    k => if k in groups then |groups[k]| else 0
  }

  /** The group sizes add up to the number of visits grouped. */
  lemma GroupSizesSum(visits: seq<Visit>, dateKey: string -> string)
    ensures var g := Grouped(visits, dateKey); Sum(g.keys, GroupSize(g.groups)) == |visits|
  {
    GroupedFacts(visits, dateKey);
    var g := Grouped(visits, dateKey);
    var key := VisitDate(dateKey);
    forall x | x in visits ensures key(x) in g.keys {
      var i :| 0 <= i < |visits| && visits[i] == x;
      assert Map(visits, key)[i] == key(x);
    }
    SumByKey(visits, key, One, g.keys);
    SumOne(visits);
    forall k | k in g.keys ensures GroupSize(g.groups)(k) == KeyTotal(visits, key, One)(k) {
      SumOne(Filter(visits, KeyIs(key, k)));
    }
    SumCongruent(g.keys, GroupSize(g.groups), KeyTotal(visits, key, One));
  }

  /** The reduce itself, over the dictionary it mutates. */
  method GroupByDate(visits: seq<Visit>, dateKey: string -> string)
    returns (keys: seq<string>, groups: map<string, seq<Visit>>)
    ensures Grouping(keys, groups) == Grouped(visits, dateKey)
    ensures keys == Distinct(Map(visits, VisitDate(dateKey)))
    ensures forall k :: k in groups <==> k in keys
    ensures forall k :: k in groups ==> groups[k] == Filter(visits, KeyIs(VisitDate(dateKey), k))
  {
    keys, groups := [], map[];
    for i := 0 to |visits|
      invariant Grouping(keys, groups) == Grouped(visits[..i], dateKey)
    {
      var k := dateKey(visits[i].date);
      ghost var before := Grouping(keys, groups);
      assert visits[..i + 1][..i] == visits[..i];
      assert visits[..i + 1][i] == visits[i];
      if k !in groups {
        groups := groups[k := []];
        keys := keys + [k];
      }
      groups := groups[k := groups[k] + [visits[i]]];
      assert k !in before.groups ==> groups == before.groups[k := [visits[i]]] by {
        if k !in before.groups {
          assert [] + [visits[i]] == [visits[i]];
          assert forall j :: j in groups <==> j in before.groups[k := [visits[i]]];
        }
      }
    }
    assert visits[..|visits|] == visits;
    GroupedFacts(visits, dateKey);
  }

  // ------------------------------------------------------------------ form

  datatype VisitForm = VisitForm(clientId: string, summary: string, totalCost: int)

  const EmptyForm: VisitForm := VisitForm("", "", 0)

  const NoClientMessage: string := "Lütfen bir müşteri seçin"

  function ClientIs(id: string): Client -> bool
  {
    (c: Client) => c.id == id
  }

  class VisitsScreen {
    var form: VisitForm
    var showForm: bool

    constructor ()
      ensures form == EmptyForm && !showForm
    {
      form, showForm := EmptyForm, false;
    }

    /** `handleSubmit`: without a client of the chosen id it alerts and stops;
        otherwise it hands `onAdd` a visit (the id is the store's to assign)
        naming the first client with that id, dated `now`, with no medications,
        and resets and hides the form. */
    method HandleSubmit(clients: seq<Client>, now: string) returns (alert: Option<string>, added: Option<Visit>)
      modifies this
      ensures (forall i :: 0 <= i < |clients| ==> clients[i].id != old(form).clientId) <==> added.None?
      ensures added.None? ==> alert == Some(NoClientMessage) && unchanged(this)
      ensures added.Some? ==>
        && alert == None
        && (exists c :: c in clients && c.id == old(form).clientId && added.value.clientName == c.name)
        && added.value == Visit("", old(form).clientId, Find(clients, ClientIs(old(form).clientId)).value.name,
                                now, old(form).summary, old(form).totalCost, [])
        && form == EmptyForm && !showForm
    {
      var client := Find(clients, ClientIs(form.clientId));
      if client.None? {
        return Some(NoClientMessage), None;
      }
      alert := None;
      added := Some(Visit("", form.clientId, client.value.name, now, form.summary, form.totalCost, []));
      form, showForm := EmptyForm, false;
    }

    /** `cancelForm`: the form is emptied and hidden. */
    method CancelForm()
      modifies this
      ensures form == EmptyForm && !showForm
    {
      form, showForm := EmptyForm, false;
    }

    /** `openForm`: the first client is preselected when there is one; the
        rest of the form is kept and the form is shown. */
    method OpenForm(clients: seq<Client>)
      modifies this
      ensures form == if |clients| > 0 then old(form).(clientId := clients[0].id) else old(form)
      ensures showForm
    {
      if |clients| > 0 {
        form := form.(clientId := clients[0].id);
      }
      showForm := true;
    }
  }
}

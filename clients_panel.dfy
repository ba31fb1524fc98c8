/** The client screen (src/components/ClientsPanel.tsx): the search, the form
    that asks the parent to add or update a client, and the debt column.
    `lower` is the library's lower-casing, passed in. */
module ClientsPanel {
  import opened Base
  import opened Seqs
  import opened Records

  /** The lower-cased term occurs in the lower-cased name, or the raw term in the raw phone. */
  predicate ClientMatches(c: Client, search: string, lower: string -> string)
  {
    Contains(lower(c.name), lower(search)) || Contains(c.phone, search)
  }

  function MatchesSearch(search: string, lower: string -> string): Client -> bool
  {
    (c: Client) => ClientMatches(c, search, lower)
  }

  /** `filteredClients`. */
  function FilteredClients(clients: seq<Client>, search: string, lower: string -> string): (r: seq<Client>)
    ensures forall i :: 0 <= i < |r| ==> r[i] in clients && ClientMatches(r[i], search, lower)
  {
    Filter(clients, MatchesSearch(search, lower))
  }

  /** A client is listed exactly when it matches; the empty term lists every
      client, in order, whatever the lower-casing does. */
  lemma FilteredClientsExact(clients: seq<Client>, search: string, lower: string -> string, c: Client)
    ensures c in FilteredClients(clients, search, lower) <==>
      c in clients && (Contains(lower(c.name), lower(search)) || Contains(c.phone, search))
    ensures search == "" ==> FilteredClients(clients, search, lower) == clients
  {
    if c in clients && ClientMatches(c, search, lower) {
      FilterKeeps(clients, MatchesSearch(search, lower), c);
    }
    if search == "" {
      forall x | x in clients ensures ClientMatches(x, search, lower) {
        assert "" <= x.phone;
      }
      FilterAllPass(clients, MatchesSearch(search, lower));
    }
  }

  datatype ClientForm = ClientForm(name: string, phone: string, address: string, totalAnimals: int, debt: int)

  /** The empty form: blank texts and zero counts. */
  const EmptyForm: ClientForm := ClientForm("", "", "", 0, 0)

  /** The form `startEdit` fills from a client: all five fields. */
  function FormOf(c: Client): (f: ClientForm)
    ensures f.name == c.name && f.phone == c.phone && f.address == c.address
    ensures f.totalAnimals == c.totalAnimals && f.debt == c.debt
  {
    ClientForm(c.name, c.phone, c.address, c.totalAnimals, c.debt)
  }

  /** The callback a submit invokes on the parent. */
  datatype ClientCall = OnAdd(form: ClientForm) | OnUpdate(id: string, form: ClientForm)

  class ClientScreen {
    var form: ClientForm
    var editingId: Option<string>
    var showForm: bool

    constructor ()
      ensures form == EmptyForm && editingId == None && !showForm
    {
      form, editingId, showForm := EmptyForm, None, false;
    }

    /** `handleSubmit`: update the client being edited, or add one; then
        forget the edit, empty the form and hide it. */
    method HandleSubmit() returns (call: ClientCall)
      modifies this
      ensures call == (if old(editingId).Some? then OnUpdate(old(editingId).value, old(form)) else OnAdd(old(form)))
      ensures form == EmptyForm && editingId == None && !showForm
    {
      if editingId.Some? {
        call := OnUpdate(editingId.value, form);
        editingId := None;
      } else {
        call := OnAdd(form);
      }
      form := EmptyForm;
      showForm := false;
    }

    /** `startEdit`: the form takes the client's fields and opens on it. */
    method StartEdit(c: Client)
      modifies this
      ensures form == FormOf(c) && editingId == Some(c.id) && showForm
    {
      editingId := Some(c.id);
      form := FormOf(c);
      showForm := true;
    }

    /** `cancelEdit`. */
    method CancelEdit()
      modifies this
      ensures form == EmptyForm && editingId == None && !showForm
    {
      editingId, form, showForm := None, EmptyForm, false;
    }
  }

  /** Editing a client and submitting at once sends its own fields back under its id. */
  method EditThenSubmit(screen: ClientScreen, c: Client) returns (call: ClientCall)
    modifies screen
    ensures call == OnUpdate(c.id, ClientForm(c.name, c.phone, c.address, c.totalAnimals, c.debt))
    ensures screen.form == EmptyForm && screen.editingId == None && !screen.showForm
  {
    screen.StartEdit(c);
    call := screen.HandleSubmit();
  }

  /** The debt column: the amount with the in-debt badge, or the no-debt text. */
  datatype DebtDisplay = Owes(amount: int, badge: string) | Settled(text: string)

  function DebtDisplayOf(c: Client): (d: DebtDisplay)
    ensures d.Owes? <==> c.debt > 0
    ensures d.Owes? ==> d.amount == c.debt && d.badge == "Borçlu"
    ensures d.Settled? ==> d.text == "Borç Yok"
  {
    if c.debt > 0 then Owes(c.debt, "Borçlu") else Settled("Borç Yok")
  }
}

/** The herd screen (src/components/AnimalsPanel.tsx): the client and search
    filters, and the animal form with its checks, its dispatch between adding
    and updating, and its reset. `lower` is the library's lower-casing. */
module AnimalsPanel {
  import opened Base
  import opened Seqs
  import opened Animals

  predicate OfClient(a: Animal, clientId: string)
  {
    a.clientId == clientId
  }

  function BelongsTo(clientId: string): Animal -> bool
  {
    (a: Animal) => OfClient(a, clientId)
  }

  /** `clientAnimals`: every animal when no client is selected, else the client's own. */
  function ClientAnimals(animals: seq<Animal>, selectedClient: string): (r: seq<Animal>)
    ensures selectedClient == "" ==> r == animals
    ensures forall i :: 0 <= i < |r| ==> r[i] in animals && (selectedClient == "" || r[i].clientId == selectedClient)
  {
    if selectedClient == "" then animals else Filter(animals, BelongsTo(selectedClient))
  }

  /** The lower-cased term occurs in the lower-cased ear tag, name or breed. */
  predicate AnimalMatches(a: Animal, term: string, lower: string -> string)
  {
    || Contains(lower(a.earTagNumber), lower(term))
    || Contains(lower(a.name), lower(term))
    || Contains(lower(a.breed), lower(term))
  }

  function MatchesTerm(term: string, lower: string -> string): Animal -> bool
  {
    (a: Animal) => AnimalMatches(a, term, lower)
  }

  /** `filteredAnimals`: the search applied to `clientAnimals`. */
  function FilteredAnimals(animals: seq<Animal>, selectedClient: string, term: string, lower: string -> string)
    : (r: seq<Animal>)
    ensures forall i :: 0 <= i < |r| ==> r[i] in animals && AnimalMatches(r[i], term, lower)
  {
    Filter(ClientAnimals(animals, selectedClient), MatchesTerm(term, lower))
  }

  /** An animal is listed exactly when it belongs to the selected client (or
      none is selected) and matches the term; with neither, all are listed. */
  lemma FilteredAnimalsExact(animals: seq<Animal>, selectedClient: string, term: string,
                             lower: string -> string, a: Animal)
    ensures a in FilteredAnimals(animals, selectedClient, term, lower) <==>
      && a in animals
      && (selectedClient == "" || a.clientId == selectedClient)
      && (|| Contains(lower(a.earTagNumber), lower(term))
          || Contains(lower(a.name), lower(term))
          || Contains(lower(a.breed), lower(term)))
    ensures lower("") == "" && term == "" && selectedClient == "" ==>
      FilteredAnimals(animals, selectedClient, term, lower) == animals
  {
    var owned := ClientAnimals(animals, selectedClient);
    if a in animals && (selectedClient == "" || a.clientId == selectedClient) {
      if selectedClient != "" {
        FilterKeeps(animals, BelongsTo(selectedClient), a);
      }
      if AnimalMatches(a, term, lower) {
        FilterKeeps(owned, MatchesTerm(term, lower), a);
      }
    }
    if lower("") == "" && term == "" && selectedClient == "" {
      forall x | x in animals ensures AnimalMatches(x, term, lower) {
        assert "" <= lower(x.earTagNumber);
      }
      FilterAllPass(animals, MatchesTerm(term, lower));
    }
  }

  // ------------------------------------------------------------------ form

  datatype AnimalForm = AnimalForm(
    earTagNumber: string, name: string, breed: string, birthDate: string, sex: Sex,
    colorMarking: string, weightKg: int, healthStatus: HealthStatus, notes: string)

  /** The empty form: a healthy male of weight zero, every text blank. */
  const DefaultAnimalForm: AnimalForm := AnimalForm("", "", "", "", Male, "", 0, Healthy, "")

  /** The form `handleEdit` fills from an animal. */
  function FormOf(a: Animal): (f: AnimalForm)
    ensures f.earTagNumber == a.earTagNumber && f.name == a.name && f.breed == a.breed && f.birthDate == a.birthDate
    ensures f.sex == a.sex && f.colorMarking == a.colorMarking && f.weightKg == a.weightKg
    ensures f.healthStatus == a.healthStatus && f.notes == a.notes
  {
    AnimalForm(a.earTagNumber, a.name, a.breed, a.birthDate, a.sex, a.colorMarking,
               a.weightKg, a.healthStatus, a.notes)
  }

  /** The row `handleSubmit` hands `addAnimal`: the form under the selected
      client (id and owner are the store's to fill). */
  function RowOf(f: AnimalForm, clientId: string): (a: Animal)
    ensures a.id == "" && a.userId == "" && a.clientId == clientId
    ensures a.earTagNumber == f.earTagNumber && a.name == f.name && a.breed == f.breed && a.birthDate == f.birthDate
    ensures a.sex == f.sex && a.colorMarking == f.colorMarking && a.weightKg == f.weightKg
    ensures a.healthStatus == f.healthStatus && a.notes == f.notes
  {
    Animal("", "", clientId, f.earTagNumber, f.name, f.breed, f.birthDate, f.sex,
           f.colorMarking, f.weightKg, f.healthStatus, f.notes)
  }

  /** Editing an animal and saving the form unchanged describes the same animal. */
  lemma FormRoundTrip(a: Animal, f: AnimalForm, clientId: string)
    ensures RowOf(FormOf(a), a.clientId).(id := a.id, userId := a.userId) == a
    ensures FormOf(RowOf(f, clientId)) == f
  {
  }

  /** Which hook operation a submit issued. */
  datatype Dispatch = NoCall | AddCall(row: Animal) | UpdateCall(id: string, changes: AnimalForm)

  const RequiredFieldsMessage: string := "Lütfen tüm zorunlu alanları doldurun"
  const NoClientMessage: string := "Lütfen işletme seçin"

  class HerdScreen {
    const store: AnimalStore
    var form: AnimalForm
    var selectedClient: string
    var editingId: Option<string>
    var isOpen: bool

    constructor (store: AnimalStore)
      ensures this.store == store && form == DefaultAnimalForm && selectedClient == ""
      ensures editingId == None && !isOpen
    {
      this.store := store;
      form, selectedClient, editingId, isOpen := DefaultAnimalForm, "", None, false;
    }

    /** `resetForm`: the defaults back and nothing being edited; the selected
        client and the dialog flag stay. */
    method ResetForm()
      modifies this
      ensures form == DefaultAnimalForm && editingId == None
      ensures selectedClient == old(selectedClient) && isOpen == old(isOpen)
    {
      form, editingId := DefaultAnimalForm, None;
    }

    /** `handleEdit`: the form, the selected client and the edited id come from
        the animal, and the dialog opens. */
    method HandleEdit(a: Animal)
      modifies this
      ensures form == FormOf(a) && selectedClient == a.clientId && editingId == Some(a.id) && isOpen
    {
      form, selectedClient, editingId, isOpen := FormOf(a), a.clientId, Some(a.id), true;
    }

    /** `handleSubmit`. The required fields are checked first and the selected
        client only after them; then the edited animal is updated with the form,
        or a new animal is added under the selected client. Success resets the
        form and closes the dialog; a failure shows the error and keeps both. */
    method HandleSubmit(user: User, addReply: Reply<string>, updateReply: Reply<Animal>)
      returns (toast: Toast, call: Dispatch)
      modifies this, store
      ensures old(form.earTagNumber) == "" || old(form.breed) == "" || old(form.birthDate) == "" ==>
        toast == ToastError(RequiredFieldsMessage) && call == NoCall && unchanged(this) && unchanged(store)
      ensures old(form.earTagNumber) != "" && old(form.breed) != "" && old(form.birthDate) != ""
              && old(selectedClient) == "" ==>
        toast == ToastError(NoClientMessage) && call == NoCall && unchanged(this) && unchanged(store)
      ensures old(form.earTagNumber) != "" && old(form.breed) != "" && old(form.birthDate) != ""
              && old(selectedClient) != "" ==>
        call == if old(editingId).Some? then UpdateCall(old(editingId).value, old(form))
                else AddCall(RowOf(old(form), old(selectedClient)))
      ensures call.AddCall? ==>
        && (toast.ToastSuccess? <==> user.Some? && addReply.Ok?)
        && (toast.ToastSuccess? ==>
              toast.text == "Hayvan eklendi"
              && store.animals == [call.row.(id := addReply.value, userId := user.value)] + old(store.animals))
      ensures call.UpdateCall? ==>
        && (toast.ToastSuccess? <==> user.Some? && updateReply.Ok?)
        && (toast.ToastSuccess? ==>
              toast.text == "Hayvan güncellendi"
              && store.animals == ReplaceById(old(store.animals), AnimalId, call.id, updateReply.value))
      ensures call != NoCall && toast.ToastSuccess? ==>
        form == DefaultAnimalForm && editingId == None && !isOpen && selectedClient == old(selectedClient)
      ensures call != NoCall && !toast.ToastSuccess? ==>
        && toast.ToastError?
        && form == old(form) && editingId == old(editingId) && isOpen == old(isOpen)
        && selectedClient == old(selectedClient) && store.animals == old(store.animals)
      ensures store.loading == old(store.loading)
    {
      if form.earTagNumber == "" || form.breed == "" || form.birthDate == "" {
        return ToastError(RequiredFieldsMessage), NoCall;
      }
      if selectedClient == "" {
        return ToastError(NoClientMessage), NoCall;
      }
      var res: Result<Animal>;
      if editingId.Some? {
        call := UpdateCall(editingId.value, form);
        res := store.UpdateAnimal(user, editingId.value, updateReply);
        toast := ToastSuccess("Hayvan güncellendi");
      } else {
        call := AddCall(RowOf(form, selectedClient));
        res := store.AddAnimal(user, RowOf(form, selectedClient), addReply);
        toast := ToastSuccess("Hayvan eklendi");
      }
      if res.Failure? {
        return ToastError(res.error), call;
      }
      ResetForm();
      isOpen := false;
    }
  }
}

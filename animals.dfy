/** The herd hook (src/hooks/useAnimals.ts): the animal list it keeps for the
    signed-in user, optionally limited to one client. The row shape follows the
    fields the herd screen reads and writes. */
module Animals {
  import opened Base
  import opened Seqs

  datatype Sex = Male | Female

  datatype HealthStatus = Healthy | UnderTreatment | Quarantine

  datatype Animal = Animal(
    id: string,
    userId: string,
    clientId: string,
    earTagNumber: string,
    name: string,
    breed: string,
    birthDate: string,
    sex: Sex,
    colorMarking: string,
    weightKg: int,
    healthStatus: HealthStatus,
    notes: string)

  function AnimalId(a: Animal): string { a.id }

  /** The conditions of the list query: always the owner, and the client when
      one is given (an empty id counts as none given). */
  function AnimalQuery(userId: string, clientId: string): (r: seq<Condition>)
    ensures |r| == 1 + (if clientId != "" then 1 else 0) && r[0] == Eq("user_id", userId)
    ensures Eq("client_id", clientId) in r <==> clientId != ""
    ensures forall c :: c in r ==> c == Eq("user_id", userId) || c == Eq("client_id", clientId)
  {
    OwnerScope(userId) + if clientId != "" then [Eq("client_id", clientId)] else []
  }

  /** The state `useAnimals` keeps. */
  class AnimalStore {
    var animals: seq<Animal>
    var loading: bool
    var error: Option<string>

    constructor ()
      ensures animals == [] && !loading && error == None
    {
      animals, loading, error := [], false, None;
    }

    /** `fetchAnimals`: nothing at all without a user; otherwise the rows the
        owner-scoped query returns replace the list, or the error is recorded. */
    method FetchAnimals(user: User, clientId: string, reply: Reply<seq<Animal>>) returns (query: Option<seq<Condition>>)
      modifies this
      ensures user.None? ==> query == None && unchanged(this)
      ensures user.Some? ==> query == Some(AnimalQuery(user.value, clientId)) && !loading
      ensures user.Some? && reply.Ok? ==> animals == reply.value && error == None
      ensures user.Some? && reply.Err? ==> animals == old(animals) && error == Some(reply.message)
    {
      if user.None? {
        return None;
      }
      loading, error := true, None;
      var conditions := OwnerScope(user.value);
      if clientId != "" {
        conditions := conditions + [Eq("client_id", clientId)];
      } else {
        assert conditions + [] == conditions;
      }
      query := Some(conditions);
      if reply.Ok? {
        animals := reply.value;
      } else {
        error := Some(reply.message);
      }
      loading := false;
    }

    /** `addAnimal`: the stored row, owned by the user, goes to the front. */
    method AddAnimal(user: User, data: Animal, reply: Reply<string>) returns (res: Result<Animal>)
      modifies this
      ensures user.None? ==> res == Failure(NotAuthenticated) && unchanged(this)
      ensures user.Some? && reply.Err? ==>
        res == Failure(reply.message) && error == Some(reply.message)
        && animals == old(animals) && loading == old(loading)
      ensures user.Some? && reply.Ok? ==>
        var row := data.(id := reply.value, userId := user.value);
        && res == Success(row) && animals == [row] + old(animals)
        && error == old(error) && loading == old(loading)
    {
      if user.None? {
        return Failure(NotAuthenticated);
      }
      if reply.Err? {
        error := Some(reply.message);
        return Failure(reply.message);
      }
      var row := data.(id := reply.value, userId := user.value);
      animals := [row] + animals;
      res := Success(row);
    }

    /** `updateAnimal`: the animals with the id become the returned row. */
    method UpdateAnimal(user: User, id: string, reply: Reply<Animal>) returns (res: Result<Animal>)
      modifies this
      ensures user.None? ==> res == Failure(NotAuthenticated) && unchanged(this)
      ensures user.Some? && reply.Err? ==>
        res == Failure(reply.message) && error == Some(reply.message)
        && animals == old(animals) && loading == old(loading)
      ensures user.Some? && reply.Ok? ==>
        && res == Success(reply.value)
        && animals == ReplaceById(old(animals), AnimalId, id, reply.value)
        && |animals| == |old(animals)|
        && (forall i :: 0 <= i < |animals| ==>
              animals[i] == if old(animals)[i].id == id then reply.value else old(animals)[i])
        && error == old(error) && loading == old(loading)
    {
      if user.None? {
        return Failure(NotAuthenticated);
      }
      if reply.Err? {
        error := Some(reply.message);
        return Failure(reply.message);
      }
      animals := ReplaceById(animals, AnimalId, id, reply.value);
      res := Success(reply.value);
    }

    /** `deleteAnimal`: exactly the animals with the id leave the list; the rest keep their order. */
    method DeleteAnimal(user: User, id: string, reply: Ack) returns (failure: Option<string>)
      modifies this
      ensures user.None? ==> failure == Some(NotAuthenticated) && unchanged(this)
      ensures user.Some? && reply.Rejected? ==>
        failure == Some(reply.message) && error == Some(reply.message)
        && animals == old(animals) && loading == old(loading)
      ensures user.Some? && reply.Accepted? ==>
        && failure == None
        && animals == RemoveById(old(animals), AnimalId, id)
        && (forall a :: a in animals <==> a in old(animals) && a.id != id)
        && error == old(error) && loading == old(loading)
    {
      if user.None? {
        return Some(NotAuthenticated);
      }
      if reply.Rejected? {
        error := Some(reply.message);
        return Some(reply.message);
      }
      forall a ensures a in RemoveById(animals, AnimalId, id) <==> a in animals && a.id != id {
        RemoveByIdExact(animals, AnimalId, id, a);
      }
      animals := RemoveById(animals, AnimalId, id);
      failure := None;
    }
  }
}

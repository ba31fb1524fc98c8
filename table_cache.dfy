/** The generic table hook (src/hooks/useSupabaseData.ts): the rows of one
    table it keeps, with how it builds its list query. `idOf` reads a row's
    `id` column. */
module TableCache {
  import opened Base
  import opened Seqs

  /** The equality condition one filter entry becomes. */
  function EntryCondition(entry: (string, string)): Condition
  {
    Eq(entry.0, entry.1)
  }

  class Cache<T(==)> {
    const idOf: T -> string
    var data: seq<T>
    var loading: bool
    var error: Option<string>

    constructor (idOf: T -> string)
      ensures this.idOf == idOf && data == [] && !loading && error == None
    {
      this.idOf := idOf;
      data, loading, error := [], false, None;
    }

    /** `fetchData`. Without a user it records the authentication error and
        issues no query. Otherwise the query is one equality per filter entry,
        in entry order, when filters are given, and the owner condition only
        when they are not: supplied filters replace the owner scoping. */
    method FetchData(user: User, filters: Option<seq<(string, string)>>, reply: Reply<seq<T>>)
      returns (query: Option<seq<Condition>>)
      modifies this
      ensures user.None? ==>
        query == None && error == Some(NotAuthenticated) && data == old(data) && loading == old(loading)
      ensures user.Some? && filters.None? ==> query == Some(OwnerScope(user.value))
      ensures user.Some? && filters.Some? ==>
        && query.Some? && |query.value| == |filters.value|
        && (forall j :: 0 <= j < |filters.value| ==> query.value[j] == Eq(filters.value[j].0, filters.value[j].1))
        && (Eq("user_id", user.value) in query.value <==> ("user_id", user.value) in filters.value)
      ensures user.Some? ==> !loading
      ensures user.Some? && reply.Ok? ==> data == reply.value && error == None
      ensures user.Some? && reply.Err? ==> data == old(data) && error == Some(reply.message)
    {
      if user.None? {
        error := Some(NotAuthenticated);
        return None;
      }
      loading, error := true, None;
      var conditions: seq<Condition> := [];
      if filters.Some? {
        var entries := filters.value;
        var i := 0;
        while i < |entries|
          invariant 0 <= i <= |entries|
          invariant |conditions| == i
          invariant forall j :: 0 <= j < i ==> conditions[j] == EntryCondition(entries[j])
        {
          conditions := conditions + [EntryCondition(entries[i])];
          i := i + 1;
        }
        OwnerConditionSupplied(entries, conditions, user.value);
      } else {
        conditions := OwnerScope(user.value);
      }
      query := Some(conditions);
      if reply.Ok? {
        data := reply.value;
      } else {
        error := Some(reply.message);
      }
      loading := false;
    }

    /** `createRecord`: the created row joins the end of the list. A failure
        is rethrown without being recorded in `error`. */
    method CreateRecord(user: User, reply: Reply<T>) returns (res: Result<T>)
      modifies this
      ensures user.None? ==> res == Failure(NotAuthenticated) && unchanged(this)
      ensures user.Some? && reply.Err? ==> res == Failure(reply.message) && unchanged(this)
      ensures user.Some? && reply.Ok? ==>
        && res == Success(reply.value) && data == old(data) + [reply.value]
        && error == old(error) && loading == old(loading)
    {
      if user.None? {
        return Failure(NotAuthenticated);
      }
      if reply.Err? {
        return Failure(reply.message);
      }
      data := data + [reply.value];
      res := Success(reply.value);
    }

    /** `updateRecord`: the rows with the id become the returned row; the
        length and every other row stay. */
    method UpdateRecord(user: User, id: string, reply: Reply<T>) returns (res: Result<T>)
      modifies this
      ensures user.None? ==> res == Failure(NotAuthenticated) && unchanged(this)
      ensures user.Some? && reply.Err? ==> res == Failure(reply.message) && unchanged(this)
      ensures user.Some? && reply.Ok? ==>
        && res == Success(reply.value)
        && data == ReplaceById(old(data), idOf, id, reply.value)
        && |data| == |old(data)|
        && (forall i :: 0 <= i < |data| ==> data[i] == if idOf(old(data)[i]) == id then reply.value else old(data)[i])
        && error == old(error) && loading == old(loading)
    {
      if user.None? {
        return Failure(NotAuthenticated);
      }
      if reply.Err? {
        return Failure(reply.message);
      }
      data := ReplaceById(data, idOf, id, reply.value);
      res := Success(reply.value);
    }

    /** `deleteRecord`: exactly the rows with the id leave the list; the rest keep their order. */
    method DeleteRecord(user: User, id: string, reply: Ack) returns (failure: Option<string>)
      modifies this
      ensures user.None? ==> failure == Some(NotAuthenticated) && unchanged(this)
      ensures user.Some? && reply.Rejected? ==> failure == Some(reply.message) && unchanged(this)
      ensures user.Some? && reply.Accepted? ==>
        && failure == None
        && data == RemoveById(old(data), idOf, id)
        && (forall x :: x in data <==> x in old(data) && idOf(x) != id)
        && error == old(error) && loading == old(loading)
    {
      if user.None? {
        return Some(NotAuthenticated);
      }
      if reply.Rejected? {
        return Some(reply.message);
      }
      forall x ensures x in RemoveById(data, idOf, id) <==> x in data && idOf(x) != id {
        RemoveByIdExact(data, idOf, id, x);
      }
      data := RemoveById(data, idOf, id);
      failure := None;
    }
  }

  /** With filters given, the owner condition is in the query exactly when the
      caller supplied it as an entry. */
  lemma OwnerConditionSupplied(entries: seq<(string, string)>, conditions: seq<Condition>, userId: string)
    requires |conditions| == |entries|
    requires forall j :: 0 <= j < |entries| ==> conditions[j] == EntryCondition(entries[j])
    ensures Eq("user_id", userId) in conditions <==> ("user_id", userId) in entries
  {
    if Eq("user_id", userId) in conditions {
      var j :| 0 <= j < |conditions| && conditions[j] == Eq("user_id", userId);
      assert entries[j] == ("user_id", userId);
    }
    if ("user_id", userId) in entries {
      var j :| 0 <= j < |entries| && entries[j] == ("user_id", userId);
      assert conditions[j] == Eq("user_id", userId);
    }
  }
}

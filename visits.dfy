/** The visit hook (src/hooks/useVisits.ts): the visits and the dispensed
    medications it keeps for the signed-in user. The hook reads only the ids,
    the owner and the filter columns of a row; the rest of a row is carried
    along as `details`. */
module Visits {
  import opened Base
  import opened Seqs

  datatype VisitRow = VisitRow(
    id: string, userId: string, clientId: string, animalId: string, visitDate: string, details: string)

  /** A dispensed medication as stored: linked to its visit and owner. */
  datatype VisitMedicationRow = VisitMedicationRow(
    id: string, userId: string, visitId: string, medicationId: string, quantity: int)

  /** A dispensed medication as the caller supplies it, before it is linked. */
  datatype MedicationUse = MedicationUse(medicationId: string, quantity: int)

  /** A vital-signs reading of an animal. */
  datatype VitalSigns = VitalSigns(id: string, userId: string, animalId: string, details: string)

  function VisitRowId(v: VisitRow): string { v.id }
  function MedicationVisitId(m: VisitMedicationRow): string { m.visitId }

  /** The conditions of the list query: the owner always, then the client and
      the animal filter when given (an empty id counts as none given). */
  function VisitQuery(userId: string, clientId: string, animalId: string): (r: seq<Condition>)
    ensures |r| == 1 + (if clientId != "" then 1 else 0) + (if animalId != "" then 1 else 0)
    ensures r[0] == Eq("user_id", userId)
    ensures Eq("client_id", clientId) in r <==> clientId != ""
    ensures Eq("animal_id", animalId) in r <==> animalId != ""
    ensures forall c :: c in r ==>
      c == Eq("user_id", userId) || c == Eq("client_id", clientId) || c == Eq("animal_id", animalId)
  {
    OwnerScope(userId)
    + (if clientId != "" then [Eq("client_id", clientId)] else [])
    + (if animalId != "" then [Eq("animal_id", animalId)] else [])
  }

  /** The supplied medications, each linked to the visit and the owner. */
  function Linked(uses: seq<MedicationUse>, visitId: string, userId: string): (r: seq<VisitMedicationRow>)
    ensures |r| == |uses|
    ensures forall i :: 0 <= i < |r| ==>
      && r[i].visitId == visitId && r[i].userId == userId
      && r[i].medicationId == uses[i].medicationId && r[i].quantity == uses[i].quantity
  {
    if uses == [] then []
    else [VisitMedicationRow("", userId, visitId, uses[0].medicationId, uses[0].quantity)]
         + Linked(uses[1..], visitId, userId)
  }

  /** The state `useVisits` keeps. */
  class VisitStore {
    var visits: seq<VisitRow>
    var visitMeds: seq<VisitMedicationRow>
    var loading: bool
    var error: Option<string>

    constructor ()
      ensures visits == [] && visitMeds == [] && !loading && error == None
    {
      visits, visitMeds, loading, error := [], [], false, None;
    }

    /** `fetchVisits`: nothing without a user; otherwise the rows of the
        owner-scoped query replace the visit list, or the error is recorded. */
    method FetchVisits(user: User, clientId: string, animalId: string, reply: Reply<seq<VisitRow>>)
      returns (query: Option<seq<Condition>>)
      modifies this
      ensures user.None? ==> query == None && unchanged(this)
      ensures user.Some? ==> query == Some(VisitQuery(user.value, clientId, animalId)) && !loading
      ensures user.Some? ==> visitMeds == old(visitMeds)
      ensures user.Some? && reply.Ok? ==> visits == reply.value && error == None
      ensures user.Some? && reply.Err? ==> visits == old(visits) && error == Some(reply.message)
    {
      if user.None? {
        return None;
      }
      loading, error := true, None;
      var conditions := OwnerScope(user.value);
      if clientId != "" {
        conditions := conditions + [Eq("client_id", clientId)];
      } else {
        assert conditions + [] == conditions;
      }
      if animalId != "" {
        conditions := conditions + [Eq("animal_id", animalId)];
      } else {
        assert conditions + [] == conditions;
      }
      query := Some(conditions);
      if reply.Ok? {
        visits := reply.value;
      } else {
        error := Some(reply.message);
      }
      loading := false;
    }

    /** `createVisit`. The visit insert, the medication insert and the re-read
        of the stored medications are separate requests. `persisted` tells
        whether the visit row is stored; `requestedMeds` is what the medication
        insert sent. The re-read's failure is not checked: it then adds no
        medications. The visit joins the front of the list only when every
        checked request succeeded. */
    method CreateVisit(user: User, data: VisitRow, uses: seq<MedicationUse>, visitReply: Reply<string>,
                       medsAck: Ack, savedReply: Reply<seq<VisitMedicationRow>>)
      returns (res: Result<VisitRow>, requestedMeds: seq<VisitMedicationRow>, persisted: bool)
      modifies this
      ensures user.None? ==> res == Failure(NotAuthenticated) && requestedMeds == [] && !persisted && unchanged(this)
      ensures user.Some? ==> persisted == visitReply.Ok? && loading == old(loading)
      ensures user.Some? && visitReply.Err? ==>
        && res == Failure(visitReply.message) && requestedMeds == [] && error == Some(visitReply.message)
        && visits == old(visits) && visitMeds == old(visitMeds)
      ensures user.Some? && visitReply.Ok? ==>
        var row := data.(id := visitReply.value, userId := user.value);
        && requestedMeds == (if |uses| > 0 then Linked(uses, row.id, user.value) else [])
        && (|uses| > 0 && medsAck.Rejected? ==>
              res == Failure(medsAck.message) && error == Some(medsAck.message)
              && visits == old(visits) && visitMeds == old(visitMeds))
        && (|uses| == 0 || medsAck.Accepted? ==>
              && res == Success(row) && visits == [row] + old(visits) && error == old(error)
              && visitMeds == (if |uses| > 0 && savedReply.Ok? then savedReply.value else []) + old(visitMeds))
    {
      requestedMeds, persisted := [], false;
      if user.None? {
        return Failure(NotAuthenticated), requestedMeds, persisted;
      }
      if visitReply.Err? {
        error := Some(visitReply.message);
        return Failure(visitReply.message), requestedMeds, persisted;
      }
      persisted := true;
      var row := data.(id := visitReply.value, userId := user.value);
      if |uses| > 0 {
        requestedMeds := Linked(uses, row.id, user.value);
        if medsAck.Rejected? {
          error := Some(medsAck.message);
          return Failure(medsAck.message), requestedMeds, persisted;
        }
        var saved := if savedReply.Ok? then savedReply.value else [];
        visitMeds := saved + visitMeds;
      } else {
        assert [] + visitMeds == visitMeds;
      }
      visits := [row] + visits;
      res := Success(row);
    }

    /** `updateVisit`: the visits with the id become the returned row. */
    method UpdateVisit(user: User, id: string, reply: Reply<VisitRow>) returns (res: Result<VisitRow>)
      modifies this
      ensures user.None? ==> res == Failure(NotAuthenticated) && unchanged(this)
      ensures user.Some? && reply.Err? ==>
        res == Failure(reply.message) && error == Some(reply.message)
        && visits == old(visits) && visitMeds == old(visitMeds) && loading == old(loading)
      ensures user.Some? && reply.Ok? ==>
        && res == Success(reply.value)
        && visits == ReplaceById(old(visits), VisitRowId, id, reply.value)
        && visitMeds == old(visitMeds) && error == old(error) && loading == old(loading)
    {
      if user.None? {
        return Failure(NotAuthenticated);
      }
      if reply.Err? {
        error := Some(reply.message);
        return Failure(reply.message);
      }
      visits := ReplaceById(visits, VisitRowId, id, reply.value);
      res := Success(reply.value);
    }

    /** `deleteVisit`: the visit goes, and with it every dispensed medication
        linked to it; nothing else leaves either list, and the order stays. */
    method DeleteVisit(user: User, id: string, reply: Ack) returns (failure: Option<string>)
      modifies this
      ensures user.None? ==> failure == Some(NotAuthenticated) && unchanged(this)
      ensures user.Some? && reply.Rejected? ==>
        failure == Some(reply.message) && error == Some(reply.message)
        && visits == old(visits) && visitMeds == old(visitMeds) && loading == old(loading)
      ensures user.Some? && reply.Accepted? ==>
        && failure == None
        && visits == RemoveById(old(visits), VisitRowId, id)
        && visitMeds == RemoveById(old(visitMeds), MedicationVisitId, id)
        && (forall v :: v in visits <==> v in old(visits) && v.id != id)
        && (forall m :: m in visitMeds <==> m in old(visitMeds) && m.visitId != id)
        && error == old(error) && loading == old(loading)
    {
      if user.None? {
        return Some(NotAuthenticated);
      }
      if reply.Rejected? {
        error := Some(reply.message);
        return Some(reply.message);
      }
      forall v ensures v in RemoveById(visits, VisitRowId, id) <==> v in visits && v.id != id {
        RemoveByIdExact(visits, VisitRowId, id, v);
      }
      forall m ensures m in RemoveById(visitMeds, MedicationVisitId, id) <==> m in visitMeds && m.visitId != id {
        RemoveByIdExact(visitMeds, MedicationVisitId, id, m);
      }
      visits := RemoveById(visits, VisitRowId, id);
      visitMeds := RemoveById(visitMeds, MedicationVisitId, id);
      failure := None;
    }

    /** `recordVitalSigns`: the reading is stored for the animal and owner;
        neither list changes. */
    method RecordVitalSigns(user: User, animalId: string, vitals: VitalSigns, reply: Reply<string>)
      returns (res: Result<VitalSigns>)
      modifies this
      ensures user.None? ==> res == Failure(NotAuthenticated) && unchanged(this)
      ensures user.Some? && reply.Err? ==> res == Failure(reply.message) && error == Some(reply.message)
      ensures user.Some? && reply.Ok? ==>
        res == Success(vitals.(id := reply.value, userId := user.value, animalId := animalId)) && error == old(error)
      ensures visits == old(visits) && visitMeds == old(visitMeds) && loading == old(loading)
    {
      if user.None? {
        return Failure(NotAuthenticated);
      }
      if reply.Err? {
        error := Some(reply.message);
        return Failure(reply.message);
      }
      res := Success(vitals.(id := reply.value, userId := user.value, animalId := animalId));
    }
  }
}

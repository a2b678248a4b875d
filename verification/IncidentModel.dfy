/**
 Incidents and the tenant-scoped collection that holds them
 (src/modules/incident/incident.model.ts and incident.repo.ts).

 The functions describe one database call each; `IncidentRepo` performs the same calls in place.
 Identifiers are abstract: a database hands out a fresh one for each document it creates.
 */
module IncidentModel {
  import opened Common

  type TenantId = nat
  type CheckId = nat
  type IncidentId = nat
  type ActorId = nat
  type Time = int

  datatype Status = Open | Monitoring | Resolved {
    predicate Active() { !Resolved? }

    function Rank(): nat {
      match this
      case Open => 0
      case Monitoring => 1
      case Resolved => 2
    }
  }

  datatype Note = Note(author: ActorId, at: Time, text: string)

  datatype Incident = Incident(
    tenant: TenantId,
    check: CheckId,
    status: Status,
    openedAt: Time,
    resolvedAt: Option<Time>,
    lastChangeAt: Time,
    notes: seq<Note>)

  type Incidents = map<IncidentId, Incident>

  /** The partial update handed to `updateById`. */
  datatype Change = Change(status: Option<Status>, resolvedAt: Option<Time>, lastChangeAt: Time, note: Option<Note>)

  /** The document `create` inserts. */
  function NewIncident(t: TenantId, c: CheckId, now: Time): Incident {
    Incident(t, c, Open, now, None, now, [])
  }

  /** The document after `$set` and `$push`. */
  function Patched(doc: Incident, change: Change): Incident {
    doc.(
      status := if change.status.Some? then change.status.value else doc.status,
      resolvedAt := if change.resolvedAt.Some? then change.resolvedAt else doc.resolvedAt,
      lastChangeAt := change.lastChangeAt,
      notes := if change.note.Some? then doc.notes + [change.note.value] else doc.notes)
  }

  /** Does the filter { _id: id, tenantId: t } match? */
  predicate Owned(m: Incidents, t: TenantId, id: IncidentId) {
    id in m && m[id].tenant == t
  }

  /** Does the filter { tenantId: t, checkId: c, status: open or monitoring } match document `id`? */
  predicate ActiveFor(m: Incidents, t: TenantId, c: CheckId, id: IncidentId) {
    Owned(m, t, id) && m[id].check == c && m[id].status.Active()
  }

  /** Every answer `findOpenByCheckId` may give: a database is free to pick any matching document. */
  ghost predicate FindOpenAnswer(m: Incidents, t: TenantId, c: CheckId, answer: Option<IncidentId>) {
    match answer
    case None => forall id | id in m :: !ActiveFor(m, t, c, id)
    case Some(id) => ActiveFor(m, t, c, id)
  }

  /** The collection after `updateById`, unchanged when no document matches. */
  function PatchById(m: Incidents, t: TenantId, id: IncidentId, change: Change): Incidents {
    if Owned(m, t, id) then m[id := Patched(m[id], change)] else m
  }

  /** At most one open or monitoring incident for each check. */
  ghost predicate AtMostOneActive(m: Incidents) {
    forall t, c, i, j :: ActiveFor(m, t, c, i) && ActiveFor(m, t, c, j) ==> i == j
  }

  /** The collection behind the repository functions. */
  class IncidentRepo {
    var docs: Incidents

    constructor ()
      ensures docs == map[]
    {
      docs := map[];
    }

    method FindById(t: TenantId, id: IncidentId) returns (answer: Option<IncidentId>)
      ensures answer == if id in docs && docs[id].tenant == t then Some(id) else None
    {
      if Owned(docs, t, id) {
        answer := Some(id);
      } else {
        answer := None;
      }
    }

    method FindOpenByCheckId(t: TenantId, c: CheckId) returns (answer: Option<IncidentId>)
      ensures FindOpenAnswer(docs, t, c, answer)
      ensures match answer
              case Some(id) =>
                id in docs && docs[id].tenant == t && docs[id].check == c
                && (docs[id].status == Open || docs[id].status == Monitoring)
              case None =>
                forall id | id in docs && docs[id].tenant == t && docs[id].check == c :: docs[id].status == Resolved
    {
      if id :| id in docs && ActiveFor(docs, t, c, id) {
        answer := Some(id);
      } else {
        answer := None;
      }
    }

    method Create(t: TenantId, c: CheckId, newId: IncidentId, now: Time) returns (doc: Incident)
      requires newId !in docs
      modifies this
      ensures doc == NewIncident(t, c, now) && docs == old(docs)[newId := doc]
    {
      doc := Incident(t, c, Open, now, None, now, []);
      docs := docs[newId := doc];
    }

    /** Builds the `$set` and `$push` parts one by one, then applies them to the matching document. */
    method UpdateById(t: TenantId, id: IncidentId, change: Change) returns (doc: Option<Incident>)
      modifies this
      ensures docs == PatchById(old(docs), t, id, change)
      ensures doc == if Owned(old(docs), t, id) then Some(docs[id]) else None
    {
      if !Owned(docs, t, id) {
        return None;
      }
      var next := docs[id].(lastChangeAt := change.lastChangeAt);
      if change.status.Some? {
        next := next.(status := change.status.value);
      }
      if change.resolvedAt.Some? {
        next := next.(resolvedAt := change.resolvedAt);
      }
      if change.note.Some? {
        next := next.(notes := next.notes + [change.note.value]);
      }
      docs := docs[id := next];
      doc := Some(next);
    }
  }
}

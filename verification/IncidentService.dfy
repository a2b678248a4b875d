/**
 The incident service in place (src/modules/incident/incident.service.ts, src/modules/audit/audit.service.ts).

 Each method is the code between two awaits of `openIncident`, `resolveIncident` or `updateIncident`, together with
 the database call that lets it go on. Its contract ties the whole state to one step of the machine in
 `IncidentEngine`, about which the properties are proved.
 */
module IncidentService {
  import opened Common
  import opened IncidentModel
  import opened IncidentEngine

  class Service {
    const repo: IncidentRepo
    var audit: seq<AuditEntry>
    var ops: map<OpId, Op>
    var published: seq<Publication>

    constructor ()
      ensures Snapshot() == EMPTY_STATE && fresh(repo)
    {
      repo := new IncidentRepo();
      audit, ops, published := [], map[], [];
    }

    function Snapshot(): State
      reads this, repo
    {
      State(repo.docs, audit, ops, published)
    }

    method End(op: OpId)
      modifies this`ops
      ensures ops == old(ops) - {op}
    {
      ops := ops - {op};
    }

    /** A request arrives; a manual update that names nothing is refused at once. */
    method Begin(op: OpId, req: Request) returns (reply: Option<Reply>)
      requires Enabled(Snapshot(), Call(op, req))
      modifies this
      ensures Snapshot() == Next(old(Snapshot()), Call(op, req))
      ensures reply == ReplyAt(old(Snapshot()), Call(op, req))
    {
      if req.UpdateIncident? && req.status == None && req.note == None {
        return Some(NothingToUpdate);
      }
      ops := ops[op := Finding(req)];
      reply := None;
    }

    /** `openIncident` up to its insert: skip when an incident is already active. */
    method OpenAfterFind(op: OpId) returns (reply: Option<Reply>, answer: Option<IncidentId>)
      requires op in ops && ops[op].Finding? && ops[op].req.OpenIncident?
      modifies this
      ensures Enabled(old(Snapshot()), Read(op, answer))
      ensures Snapshot() == Next(old(Snapshot()), Read(op, answer))
      ensures reply == ReplyAt(old(Snapshot()), Read(op, answer))
    {
      var req := ops[op].req;
      answer := repo.FindOpenByCheckId(req.tenant, req.check);
      if answer.Some? {
        End(op);
        reply := Some(Skipped);
      } else {
        ops := ops[op := Creating(req)];
        reply := None;
      }
    }

    /** `resolveIncident` up to its update: skip when nothing is active. */
    method ResolveAfterFind(op: OpId) returns (reply: Option<Reply>, answer: Option<IncidentId>)
      requires op in ops && ops[op].Finding? && ops[op].req.ResolveIncident?
      modifies this
      ensures Enabled(old(Snapshot()), Read(op, answer))
      ensures Snapshot() == Next(old(Snapshot()), Read(op, answer))
      ensures reply == ReplyAt(old(Snapshot()), Read(op, answer))
    {
      var req := ops[op].req;
      answer := repo.FindOpenByCheckId(req.tenant, req.check);
      if answer.None? {
        End(op);
        reply := Some(Skipped);
      } else {
        ops := ops[op := Patching(req, answer.value, repo.docs[answer.value].status)];
        reply := None;
      }
    }

    /** `updateIncident` up to its update: the transition is checked against the status just read. */
    method UpdateAfterFind(op: OpId) returns (reply: Option<Reply>, answer: Option<IncidentId>)
      requires op in ops && ops[op].Finding? && ops[op].req.UpdateIncident?
      modifies this
      ensures Enabled(old(Snapshot()), Read(op, answer))
      ensures Snapshot() == Next(old(Snapshot()), Read(op, answer))
      ensures reply == ReplyAt(old(Snapshot()), Read(op, answer))
    {
      var req := ops[op].req;
      answer := repo.FindById(req.tenant, req.id);
      if answer.None? {
        End(op);
        return Some(NotFound), answer;
      }
      var from := repo.docs[req.id].status;
      if req.status.Some? && req.status.value != from {
        var allowed := Allowed(from);
        if req.status.value !in allowed {
          End(op);
          return Some(InvalidTransition(from, req.status.value)), answer;
        }
      }
      ops := ops[op := Patching(req, req.id, from)];
      reply := None;
    }

    /** The insert of `openIncident` takes effect. */
    method CreateTakesEffect(op: OpId, newId: IncidentId, now: Time)
      requires op in ops && ops[op].Creating? && ops[op].req.OpenIncident? && newId !in repo.docs
      modifies this, repo
      ensures Snapshot() == Next(old(Snapshot()), Write(op, newId, now))
    {
      var req := ops[op].req;
      var doc := repo.Create(req.tenant, req.check, newId, now);
      ops := ops[op := Replying(req, newId, Open, Some(doc))];
    }

    /** The update of `resolveIncident` or `updateIncident` takes effect. */
    method PatchTakesEffect(op: OpId, newId: IncidentId, now: Time) returns (reply: Option<Reply>)
      requires op in ops && ops[op].Patching? && newId !in repo.docs
      modifies this, repo
      ensures Snapshot() == Next(old(Snapshot()), Write(op, newId, now))
      ensures reply == ReplyAt(old(Snapshot()), Write(op, newId, now))
    {
      var Patching(req, id, prev) := ops[op];
      var change := Change(Some(Resolved), Some(now), now, None);
      if req.UpdateIncident? {
        var resolvedAt := None;
        if req.status == Some(Resolved) {
          resolvedAt := Some(now);
        }
        var note := None;
        if req.note.Some? {
          note := Some(Note(req.actor, now, req.note.value));
        }
        change := Change(req.status, resolvedAt, now, note);
      }
      var updated := repo.UpdateById(req.tenant, id, change);
      if updated.None? && req.UpdateIncident? {
        End(op);
        return Some(NotFound);
      }
      ops := ops[op := Replying(req, id, prev, updated)];
      reply := None;
    }

    /** The code after the write: issue the audit insert, publish to the tenant's channel, answer. */
    method Finish(op: OpId, now: Time) returns (reply: Reply)
      requires op in ops && ops[op].Replying? && !ops[op].req.GetIncident?
      modifies this
      ensures Snapshot() == Next(old(Snapshot()), Resume(op, now))
      ensures Some(reply) == ReplyAt(old(Snapshot()), Resume(op, now))
    {
      var Replying(req, id, prev, updated) := ops[op];
      match req
      case OpenIncident(t, c) =>
        ops := ops[op := Logging(AuditEntry(t, None, OpenAction(c), id, now))];
        published := published + [Publication(t, IncidentOpened(id, c))];
        reply := Opened(id);
      case ResolveIncident(t, c) =>
        ops := ops[op := Logging(AuditEntry(t, None, ResolveAction(c), id, now))];
        published := published + [Publication(t, IncidentResolved(id, c))];
        reply := AutoResolved(id);
      case UpdateIncident(t, target, status, note, actor) =>
        var next := prev;
        if status.Some? {
          next := status.value;
        }
        ops := ops[op := Logging(AuditEntry(t, Some(actor), UpdateAction(prev, next, note.Some?), target, now))];
        published := published + [Publication(t, IncidentUpdated(id))];
        reply := if updated.Some? then Document(updated.value) else NotFound;
    }

    /** `auditService.log`: the insert succeeds, or its error is swallowed. */
    method AuditInsert(op: OpId, succeeds: bool)
      requires op in ops && ops[op].Logging?
      modifies this
      ensures Snapshot() == Next(old(Snapshot()), if succeeds then Log(op) else Fail(op))
    {
      if succeeds {
        audit := audit + [ops[op].entry];
      }
      End(op);
    }
  }
}

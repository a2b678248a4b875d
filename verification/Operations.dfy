/**
 What the incident operations decide, write and say, field by field, in any state and so under any interleaving
 (src/modules/incident/incident.service.ts:72-245); and what each of them leaves behind when it runs alone.
 */
module Operations {
  import opened Common
  import opened IncidentModel
  import opened IncidentEngine

  /** A status may be kept or raised, never lowered: from open to any, from monitoring to resolved. */
  lemma TransitionsClimb(from: Status, to: Status)
    ensures MayMove(from, to) <==> from.Rank() <= to.Rank()
    ensures MayMove(from, to) <==> from == to || from == Open || (from == Monitoring && to == Resolved)
  {
  }

  /** An incident of the tenant's check that is open or monitoring. */
  predicate Unresolved(m: Incidents, t: TenantId, c: CheckId, id: IncidentId) {
    id in m && m[id].tenant == t && m[id].check == c && (m[id].status == Open || m[id].status == Monitoring)
  }

  lemma UnresolvedIsActive(m: Incidents)
    ensures forall t, c, id :: Unresolved(m, t, c, id) <==> ActiveFor(m, t, c, id)
  {
  }

  /** The step changes nothing but operation `op`. */
  ghost predicate OnlyOp(s: State, s': State, op: OpId) {
    && s'.incidents == s.incidents && s'.audit == s.audit && s'.published == s.published
    && s'.ops - {op} == s.ops - {op}
  }

  // ----- Decisions -----

  /** A failure is skipped if and only if the check has an unresolved incident; otherwise one is created. */
  lemma OpenDecides(s: State, op: OpId, answer: Option<IncidentId>)
    requires Enabled(s, Read(op, answer)) && s.ops[op].req.OpenIncident?
    ensures var req, a, s' := s.ops[op].req, Read(op, answer), Next(s, Read(op, answer));
            && OnlyOp(s, s', op)
            && (ReplyAt(s, a) == Some(Skipped) <==> exists id :: Unresolved(s.incidents, req.tenant, req.check, id))
            && (ReplyAt(s, a).Some? ==> op !in s'.ops)
            && (ReplyAt(s, a).None? ==> op in s'.ops && s'.ops[op] == Creating(req))
  {
    UnresolvedIsActive(s.incidents);
  }

  /** A recovery is skipped if and only if the check has no unresolved incident; otherwise one of them is to be resolved. */
  lemma ResolveDecides(s: State, op: OpId, answer: Option<IncidentId>)
    requires Enabled(s, Read(op, answer)) && s.ops[op].req.ResolveIncident?
    ensures var req, a, s' := s.ops[op].req, Read(op, answer), Next(s, Read(op, answer));
            && OnlyOp(s, s', op)
            && (ReplyAt(s, a) == Some(Skipped) <==> forall id :: !Unresolved(s.incidents, req.tenant, req.check, id))
            && (ReplyAt(s, a).Some? ==> op !in s'.ops)
            && (ReplyAt(s, a).None? ==>
                  && answer.Some? && Unresolved(s.incidents, req.tenant, req.check, answer.value)
                  && op in s'.ops && s'.ops[op] == Patching(req, answer.value, s.incidents[answer.value].status))
  {
    UnresolvedIsActive(s.incidents);
  }

  /**
   A manual update is not found if and only if the tenant has no such incident, and an invalid transition if and only if
   it asks for a status below the one read; otherwise it goes on to its write.
   */
  lemma UpdateDecides(s: State, op: OpId, answer: Option<IncidentId>)
    requires Enabled(s, Read(op, answer)) && s.ops[op].req.UpdateIncident?
    ensures var req, m, s' := s.ops[op].req, s.incidents, Next(s, Read(op, answer));
            var owned := req.id in m && m[req.id].tenant == req.tenant;
            var lower := owned && req.status.Some? && req.status.value.Rank() < m[req.id].status.Rank();
            && OnlyOp(s, s', op)
            && ReplyAt(s, Read(op, answer)) ==
               (if !owned then Some(NotFound)
                else if lower then Some(InvalidTransition(m[req.id].status, req.status.value))
                else None)
            && if owned && !lower then op in s'.ops && s'.ops[op] == Patching(req, req.id, m[req.id].status)
               else op !in s'.ops
  {
    var req, m := s.ops[op].req, s.incidents;
    if req.id in m && req.status.Some? {
      TransitionsClimb(m[req.id].status, req.status.value);
    }
  }

  /** A read answers the tenant's own incident as stored, or that there is none. */
  lemma GetAnswers(s: State, op: OpId, answer: Option<IncidentId>)
    requires Enabled(s, Read(op, answer)) && s.ops[op].req.GetIncident?
    ensures var req, m := s.ops[op].req, s.incidents;
            && OnlyOp(s, Next(s, Read(op, answer)), op) && op !in Next(s, Read(op, answer)).ops
            && ReplyAt(s, Read(op, answer)) ==
               if req.id in m && m[req.id].tenant == req.tenant then Some(Document(m[req.id])) else Some(NotFound)
  {
  }

  /** A request is refused at once if and only if it is an update that names neither a status nor a note. */
  lemma CallStarts(s: State, op: OpId, req: Request)
    requires Enabled(s, Call(op, req))
    ensures var s' := Next(s, Call(op, req));
            && OnlyOp(s, s', op)
            && if req.UpdateIncident? && req.status == None && req.note == None
               then ReplyAt(s, Call(op, req)) == Some(NothingToUpdate) && op !in s'.ops
               else ReplyAt(s, Call(op, req)) == None && op in s'.ops && s'.ops[op] == Finding(req)
  {
  }

  // ----- Writes -----

  /** Only incident `id` may differ. */
  ghost predicate OthersKept(m: Incidents, m': Incidents, id: IncidentId) {
    forall i | i != id :: (i in m' <==> i in m) && (i in m && i in m' ==> m'[i] == m[i])
  }

  /** A created incident is open, of the tenant and check that failed, opened and changed now, without notes. */
  lemma CreateStores(s: State, a: Action)
    requires Enabled(s, a) && a.Write? && s.ops[a.op].Creating? && s.ops[a.op].req.OpenIncident?
    ensures var req, m, s' := s.ops[a.op].req, s.incidents, Next(s, a);
            && OthersKept(m, s'.incidents, a.newId) && s'.audit == s.audit && s'.published == s.published
            && a.newId in s'.incidents
            && var doc := s'.incidents[a.newId];
               && doc.tenant == req.tenant && doc.check == req.check && doc.status == Open
               && doc.openedAt == a.now && doc.lastChangeAt == a.now && doc.resolvedAt == None && doc.notes == []
               && s'.ops == s.ops[a.op := Replying(req, a.newId, Open, Some(doc))]
  {
  }

  /** The document after a resolve or an update of it at time `now`, by fields. */
  ghost predicate Changed(doc: Incident, doc': Incident, req: Request, now: Time) {
    && doc'.tenant == doc.tenant && doc'.check == doc.check && doc'.openedAt == doc.openedAt && doc'.lastChangeAt == now
    && match req
       case ResolveIncident(_, _) =>
         doc'.status == Resolved && doc'.resolvedAt == Some(now) && doc'.notes == doc.notes
       case UpdateIncident(_, _, status, note, actor) =>
         && doc'.status == (if status.Some? then status.value else doc.status)
         && doc'.resolvedAt == (if status == Some(Resolved) then Some(now) else doc.resolvedAt)
         && |doc'.notes| == |doc.notes| + (if note.Some? then 1 else 0) && doc.notes <= doc'.notes
         && (note.Some? ==>
               var last := doc'.notes[|doc.notes|];
               last.author == actor && last.at == now && last.text == note.value)
       case _ => false
  }

  /**
   A resolve or an update changes the status, the resolution time, the last change and the notes of the one incident,
   as asked, and nothing else; where the tenant has no such incident it changes nothing, and an update is not found.
   */
  lemma PatchStores(s: State, a: Action)
    requires Enabled(s, a) && a.Write? && s.ops[a.op].Patching?
    requires s.ops[a.op].req.ResolveIncident? || s.ops[a.op].req.UpdateIncident?
    ensures var Patching(req, id, prev), m, s' := s.ops[a.op], s.incidents, Next(s, a);
            && s'.audit == s.audit && s'.published == s.published && s'.ops - {a.op} == s.ops - {a.op}
            && if id in m && m[id].tenant == req.tenant then
                 && OthersKept(m, s'.incidents, id) && id in s'.incidents
                 && Changed(m[id], s'.incidents[id], req, a.now)
                 && a.op in s'.ops && s'.ops[a.op] == Replying(req, id, prev, Some(s'.incidents[id]))
               else
                 && s'.incidents == m
                 && (req.UpdateIncident? ==> ReplyAt(s, a) == Some(NotFound) && a.op !in s'.ops)
                 && (req.ResolveIncident? ==> a.op in s'.ops && s'.ops[a.op] == Replying(req, id, prev, None))
  {
  }

  // ----- What is said -----

  /**
   After its write an operation says what it did: the entry names the tenant, the incident and the moment, who acted
   (nobody, for the two automatic ones), and for an update the status read, the status asked for or else the one read,
   and whether it came with a note; the message goes to the tenant's channel; the caller of an update gets the document
   as written.
   */
  lemma ResumeSays(s: State, a: Action)
    requires Enabled(s, a) && a.Resume? && !s.ops[a.op].req.GetIncident?
    ensures var Replying(req, id, prev, doc), s' := s.ops[a.op], Next(s, a);
            && s'.incidents == s.incidents && s'.audit == s.audit && s'.ops - {a.op} == s.ops - {a.op}
            && a.op in s'.ops && s'.ops[a.op].Logging? && |s'.published| == |s.published| + 1
            && s.published <= s'.published && s'.published[|s.published|].tenant == req.tenant
            && var entry := s'.ops[a.op].entry;
               var message := s'.published[|s.published|].message;
               && entry.tenant == req.tenant && entry.ts == a.now
               && match req
                  case OpenIncident(_, c) =>
                    && entry.actor == None && entry.action == OpenAction(c) && entry.target == id
                    && message == IncidentOpened(id, c) && ReplyAt(s, a) == Some(Opened(id))
                  case ResolveIncident(_, c) =>
                    && entry.actor == None && entry.action == ResolveAction(c) && entry.target == id
                    && message == IncidentResolved(id, c) && ReplyAt(s, a) == Some(AutoResolved(id))
                  case UpdateIncident(_, target, status, note, actor) =>
                    && entry.actor == Some(actor) && entry.target == target
                    && entry.action ==
                       UpdateAction(prev, if status.Some? then status.value else prev, note.Some?)
                    && message == IncidentUpdated(id)
                    && (doc.Some? ==> ReplyAt(s, a) == Some(Document(doc.value)))
                  case _ => true
  {
  }

  /** The entry is appended to the log, or lost with its failing insert; nothing else changes. */
  lemma LogAppends(s: State, op: OpId)
    requires op in s.ops && s.ops[op].Logging?
    ensures Next(s, Log(op)).audit == s.audit + [s.ops[op].entry] && Next(s, Fail(op)).audit == s.audit
    ensures forall s' | s' == Next(s, Log(op)) || s' == Next(s, Fail(op)) ::
              s'.incidents == s.incidents && s'.published == s.published && s'.ops == s.ops - {op}
  {
  }

  // ----- Whole operations, alone -----

  /** The steps of an operation that gets as far as its write. */
  function Whole(op: OpId, req: Request, answer: Option<IncidentId>, newId: IncidentId, now: Time, later: Time): seq<Action> {
    [Call(op, req), Read(op, answer), Write(op, newId, now), Resume(op, later), Log(op)]
  }

  lemma {:induction false} RunsOn(s: State, run: seq<Action>)
    requires run != [] && Enabled(s, run[0]) && Valid(Next(s, run[0]), run[1..])
    ensures Valid(s, run) && Exec(s, run) == Exec(Next(s, run[0]), run[1..])
  {
  }

  /** The end of an operation whose write has taken effect. */
  lemma Finishes(s: State, op: OpId, later: Time)
    requires op in s.ops && s.ops[op].Replying?
    ensures var run := [Resume(op, later), Log(op)];
            && Valid(s, run)
            && Exec(s, run) == Next(Next(s, Resume(op, later)), Log(op))
  {
    var run := [Resume(op, later), Log(op)];
    var s1 := Next(s, run[0]);
    var last := [Log(op)];
    assert run[1..] == last && last[1..] == [];
    assert Valid(Next(s1, Log(op)), last[1..]);
    RunsOn(s1, last);
    RunsOn(s, run);
  }

  lemma WritesAndFinishes(s: State, op: OpId, newId: IncidentId, now: Time, later: Time)
    requires Enabled(s, Write(op, newId, now)) && op in Next(s, Write(op, newId, now)).ops
    requires Next(s, Write(op, newId, now)).ops[op].Replying?
    ensures var run := [Write(op, newId, now), Resume(op, later), Log(op)];
            && Valid(s, run)
            && Exec(s, run) == Next(Next(Next(s, Write(op, newId, now)), Resume(op, later)), Log(op))
  {
    var run := [Write(op, newId, now), Resume(op, later), Log(op)];
    assert run[1..] == [Resume(op, later), Log(op)];
    Finishes(Next(s, run[0]), op, later);
    RunsOn(s, run);
  }

  /** A whole operation is its five steps. */
  lemma WholeRuns(
    s: State, op: OpId, req: Request, answer: Option<IncidentId>, newId: IncidentId, now: Time, later: Time)
    returns (read: State, written: State)
    requires op !in s.ops && !Empty(req) && newId !in s.incidents && AnswerAllowed(s.incidents, req, answer)
    requires AfterRead(s.incidents, req, answer).Continue?
    requires var o := AfterRead(s.incidents, req, answer).op;
             AfterWrite(s.incidents, o, newId, now).Continue? && AfterWrite(s.incidents, o, newId, now).op.Replying?
             && (o.Creating? || o.Patching?)
    ensures read == Next(Next(s, Call(op, req)), Read(op, answer)) && Enabled(read, Write(op, newId, now))
    ensures written == Next(read, Write(op, newId, now)) && op in written.ops && written.ops[op].Replying?
    ensures Valid(s, Whole(op, req, answer, newId, now, later))
    ensures Exec(s, Whole(op, req, answer, newId, now, later)) == Next(Next(written, Resume(op, later)), Log(op))
  {
    var run := Whole(op, req, answer, newId, now, later);
    var called := Next(s, run[0]);
    read := Next(called, run[1]);
    written := Next(read, run[2]);
    WritesAndFinishes(read, op, newId, now, later);
    var fromRead := [Read(op, answer), Write(op, newId, now), Resume(op, later), Log(op)];
    assert fromRead[1..] == [Write(op, newId, now), Resume(op, later), Log(op)];
    RunsOn(called, fromRead);
    assert run[1..] == fromRead;
    RunsOn(s, run);
  }

  /** The operation is over, and has logged one entry and published one message for its tenant. */
  ghost predicate Over(s: State, s': State, req: Request, later: Time) {
    && s'.ops == s.ops && |s'.audit| == |s.audit| + 1 && s.audit <= s'.audit
    && |s'.published| == |s.published| + 1 && s.published <= s'.published
    && s'.audit[|s.audit|].tenant == req.tenant && s'.audit[|s.audit|].ts == later
    && s'.published[|s.published|].tenant == req.tenant
  }

  lemma Closes(s: State, written: State, op: OpId, req: Request, later: Time)
    requires op !in s.ops && op in written.ops && written.ops[op].Replying? && written.ops[op].req == req
    requires !req.GetIncident? && written.ops - {op} == s.ops
    requires written.audit == s.audit && written.published == s.published
    ensures var s' := Next(Next(written, Resume(op, later)), Log(op));
            && Over(s, s', req, later) && s'.incidents == written.incidents
            && s'.audit[|s.audit|] == EntryOf(written.ops[op], later)
  {
    ResumeSays(written, Resume(op, later));
    LogAppends(Next(written, Resume(op, later)), op);
  }

  /** A failure of a check without an unresolved incident, alone, leaves it with exactly one, open since then. */
  lemma OpenAlone(s: State, op: OpId, t: TenantId, c: CheckId, newId: IncidentId, now: Time, later: Time)
    requires op !in s.ops && newId !in s.incidents && forall id :: !Unresolved(s.incidents, t, c, id)
    ensures var run := Whole(op, OpenIncident(t, c), None, newId, now, later);
            && Valid(s, run)
            && var s' := Exec(s, run);
               && Over(s, s', OpenIncident(t, c), later) && OthersKept(s.incidents, s'.incidents, newId)
               && newId in s'.incidents && (forall id :: Unresolved(s'.incidents, t, c, id) <==> id == newId)
               && s'.incidents[newId].status == Open && s'.incidents[newId].openedAt == now
               && s'.audit[|s.audit|].action == OpenAction(c) && s'.audit[|s.audit|].target == newId
  {
    var req := OpenIncident(t, c);
    UnresolvedIsActive(s.incidents);
    var read, written := WholeRuns(s, op, req, None, newId, now, later);
    CreateStores(read, Write(op, newId, now));
    Closes(s, written, op, req, later);
  }

  /** A recovery of a check with one unresolved incident, alone, leaves it with none: that one is resolved. */
  lemma ResolveAlone(
    s: State, op: OpId, t: TenantId, c: CheckId, id: IncidentId, newId: IncidentId, now: Time, later: Time)
    requires op !in s.ops && newId !in s.incidents && forall i :: Unresolved(s.incidents, t, c, i) <==> i == id
    ensures var run := Whole(op, ResolveIncident(t, c), Some(id), newId, now, later);
            && Valid(s, run)
            && var s' := Exec(s, run);
               && Over(s, s', ResolveIncident(t, c), later) && OthersKept(s.incidents, s'.incidents, id)
               && (forall i :: !Unresolved(s'.incidents, t, c, i))
               && id in s'.incidents && s'.incidents[id].status == Resolved && s'.incidents[id].resolvedAt == Some(now)
               && s'.audit[|s.audit|].action == ResolveAction(c) && s'.audit[|s.audit|].target == id
  {
    var req := ResolveIncident(t, c);
    assert Unresolved(s.incidents, t, c, id);
    UnresolvedIsActive(s.incidents);
    var read, written := WholeRuns(s, op, req, Some(id), newId, now, later);
    PatchStores(read, Write(op, newId, now));
    Closes(s, written, op, req, later);
    forall i
      ensures !Unresolved(written.incidents, t, c, i)
    {
      if i != id {
        assert !Unresolved(s.incidents, t, c, i);
      }
    }
  }

  /**
   A manual update of an own incident to the same or a higher status, or with a note alone, when it runs alone: the
   incident is left with the status asked for and the note, and the entry leads from the old status to the new one.
   */
  lemma UpdateAlone(s: State, op: OpId, req: Request, newId: IncidentId, now: Time, later: Time)
    requires op !in s.ops && newId !in s.incidents
    requires req.UpdateIncident? && (req.status.Some? || req.note.Some?)
    requires req.id in s.incidents && s.incidents[req.id].tenant == req.tenant
    requires req.status.Some? ==> s.incidents[req.id].status.Rank() <= req.status.value.Rank()
    ensures var run := Whole(op, req, Some(req.id), newId, now, later);
            && Valid(s, run)
            && var s' := Exec(s, run);
               && Over(s, s', req, later) && OthersKept(s.incidents, s'.incidents, req.id) && req.id in s'.incidents
               && Changed(s.incidents[req.id], s'.incidents[req.id], req, now)
               && s'.audit[|s.audit|].actor == Some(req.actor) && s'.audit[|s.audit|].target == req.id
               && s'.audit[|s.audit|].action ==
                  UpdateAction(s.incidents[req.id].status, s'.incidents[req.id].status, req.note.Some?)
  {
    if req.status.Some? {
      TransitionsClimb(s.incidents[req.id].status, req.status.value);
    }
    var read, written := WholeRuns(s, op, req, Some(req.id), newId, now, later);
    PatchStores(read, Write(op, newId, now));
    Closes(s, written, op, req, later);
  }
}

/**
 Tenants do not see each other (the tenant filter of src/modules/incident/incident.repo.ts,
 src/modules/check/check.repo.ts and src/modules/audit/audit.service.ts), over whole interleaved runs.
 */
module Tenancy {
  import opened IncidentModel
  import opened IncidentEngine
  import opened CheckModel
  import opened Listing
  import opened PagedRows
  import opened Paging

  datatype Site = Site(engine: State, checks: Checks)

  datatype Step =
    | Engine(a: Action)
    | Crud(req: CheckRequest, newId: CheckId)
    | ProbeWrites(t: TenantId, check: CheckId, last: LastResult)   // by id alone, for the tenant of the probed copy
    | ReadIncidents(t: TenantId, incidentQuery: IncidentQuery)
    | ReadChecks(t: TenantId, checkQuery: CheckQuery)
    | ReadAudit(t: TenantId, auditQuery: AuditQuery)

  /** Anything a caller can get back. */
  datatype Result =
    | NoResult
    | IncidentResult(reply: Reply)
    | CheckResult(answer: CheckReply)
    | IncidentRows(incidents: Rows<Incident>)
    | CheckRows(checks: Rows<Check>)
    | AuditRows(entries: Rows<AuditEntry>)

  ghost predicate CanStep(s: Site, step: Step) {
    match step
    case Engine(a) => Enabled(s.engine, a)
    case Crud(_, newId) => newId !in s.checks
    case ProbeWrites(t, c, _) => c in s.checks ==> s.checks[c].tenant == t
    case _ => true
  }

  ghost function After(s: Site, step: Step): Site
    requires CanStep(s, step)
  {
    match step
    case Engine(a) => s.(engine := Next(s.engine, a))
    case Crud(req, newId) => s.(checks := ChecksAfter(s.checks, req, newId))
    case ProbeWrites(_, c, last) => s.(checks := Recorded(s.checks, c, last))
    case _ => s
  }

  ghost function ResultOf(s: Site, step: Step): Result
    requires CanStep(s, step)
  {
    match step
    case Engine(a) => var r := ReplyAt(s.engine, a); if r.Some? then IncidentResult(r.value) else NoResult
    case Crud(req, newId) => CheckResult(CheckReplyTo(s.checks, req, newId))
    case ProbeWrites(_, _, _) => NoResult
    case ReadIncidents(t, q) => IncidentRows(ListIncidents(s.engine.incidents, t, q))
    case ReadChecks(t, q) => CheckRows(ListChecks(s.checks, t, q))
    case ReadAudit(t, q) => AuditRows(QueryAudit(s.engine.audit, t, q))
  }

  function TenantOf(o: Op): TenantId {
    match o
    case Logging(entry) => entry.tenant
    case _ => o.req.tenant
  }

  /** On whose behalf a step is taken. */
  ghost function Actor(s: Site, step: Step): TenantId
    requires CanStep(s, step)
  {
    match step
    case Engine(a) => if a.Call? then a.req.tenant else TenantOf(s.engine.ops[a.op])
    case Crud(req, _) => req.tenant
    case ProbeWrites(t, _, _) => t
    case ReadIncidents(t, _) => t
    case ReadChecks(t, _) => t
    case ReadAudit(t, _) => t
  }

  function PublicationsOf(published: seq<Publication>, t: TenantId): seq<Publication> {
    if published == [] then []
    else
      var rest := PublicationsOf(published[..|published| - 1], t);
      if published[|published| - 1].tenant == t then rest + [published[|published| - 1]] else rest
  }

  function IncidentsOf(m: Incidents, t: TenantId): Incidents {
    map id | id in m && m[id].tenant == t :: m[id]
  }

  /** What belongs to tenant `t`. */
  function Mine(e: State, t: TenantId): State {
    State(
      IncidentsOf(e.incidents, t),
      EntriesOfTenant(e.audit, t),
      map q | q in e.ops && TenantOf(e.ops[q]) == t :: e.ops[q],
      PublicationsOf(e.published, t))
  }

  function Part(s: Site, t: TenantId): Site {
    Site(Mine(s.engine, t), ChecksOf(s.checks, t))
  }

  ghost predicate Possible(s: Site, run: seq<Step>)
    decreases |run|
  {
    run == [] || (CanStep(s, run[0]) && Possible(After(s, run[0]), run[1..]))
  }

  ghost function Outcome(s: Site, run: seq<Step>): Site
    requires Possible(s, run)
    decreases |run|
  {
    if run == [] then s else Outcome(After(s, run[0]), run[1..])
  }

  /** The run with every other tenant's steps deleted. */
  ghost function Own(s: Site, run: seq<Step>, t: TenantId): seq<Step>
    requires Possible(s, run)
    decreases |run|
  {
    if run == [] then []
    else (if Actor(s, run[0]) == t then [run[0]] else []) + Own(After(s, run[0]), run[1..], t)
  }

  /** The results tenant `t` gets during the run. */
  ghost function ResultsFor(s: Site, run: seq<Step>, t: TenantId): seq<Result>
    requires Possible(s, run)
    decreases |run|
  {
    if run == [] then []
    else (if Actor(s, run[0]) == t then [ResultOf(s, run[0])] else []) + ResultsFor(After(s, run[0]), run[1..], t)
  }

  // ----- One step -----

  lemma {:induction false} EntriesGrow(audit: seq<AuditEntry>, e: AuditEntry, t: TenantId)
    ensures EntriesOfTenant(audit + [e], t) ==
            if e.tenant == t then EntriesOfTenant(audit, t) + [e] else EntriesOfTenant(audit, t)
  {
    assert (audit + [e])[..|audit + [e]| - 1] == audit;
  }

  lemma {:induction false} PublicationsGrow(published: seq<Publication>, p: Publication, t: TenantId)
    ensures PublicationsOf(published + [p], t) ==
            if p.tenant == t then PublicationsOf(published, t) + [p] else PublicationsOf(published, t)
  {
    assert (published + [p])[..|published + [p]| - 1] == published;
  }

  lemma {:induction false} OwnEntriesAreOwn(audit: seq<AuditEntry>, t: TenantId)
    ensures EntriesOfTenant(EntriesOfTenant(audit, t), t) == EntriesOfTenant(audit, t)
  {
    if audit != [] {
      var before := audit[..|audit| - 1];
      OwnEntriesAreOwn(before, t);
      if audit[|audit| - 1].tenant == t {
        EntriesGrow(EntriesOfTenant(before, t), audit[|audit| - 1], t);
      }
    }
  }

  /** The operation a step leaves at `q` belongs to whom it belonged to. */
  lemma WriteKeepsOwner(e: State, a: Action)
    requires Enabled(e, a) && a.Write?
    ensures var o := e.ops[a.op];
            var next := Next(e, a);
            && (a.op in next.ops ==> TenantOf(next.ops[a.op]) == o.req.tenant)
            && next.ops - {a.op} == e.ops - {a.op}
            && (forall id | id in next.incidents && (id !in e.incidents || next.incidents[id] != e.incidents[id]) ::
                  next.incidents[id].tenant == o.req.tenant && (id in e.incidents ==> e.incidents[id].tenant == o.req.tenant))
            && (forall id | id in e.incidents :: id in next.incidents)
  {
  }

  /** Another tenant's write leaves nothing in t's part. */
  lemma ForeignWrite(e: State, a: Action, t: TenantId)
    requires Enabled(e, a) && a.Write? && TenantOf(e.ops[a.op]) != t
    ensures Mine(Next(e, a), t) == Mine(e, t)
  {
    var next := Next(e, a);
    WriteKeepsOwner(e, a);
    assert forall q | q in next.ops && q != a.op :: q in next.ops - {a.op};
    assert forall q | q in e.ops && q != a.op :: q in e.ops - {a.op} && (e.ops - {a.op})[q] == (next.ops - {a.op})[q];
    assert Mine(next, t).ops == Mine(e, t).ops;
    assert Mine(next, t).incidents == Mine(e, t).incidents;
  }

  /** Another tenant's step moves none of t's operations. */
  lemma ForeignOps(e: State, a: Action, t: TenantId)
    requires Enabled(e, a) && !a.Write? && (if a.Call? then a.req.tenant else TenantOf(e.ops[a.op])) != t
    ensures Mine(Next(e, a), t).ops == Mine(e, t).ops
  {
    var before, after := e.ops, Next(e, a).ops;
    assert forall q | q != a.op :: (q in before <==> q in after) && (q in before ==> after[q] == before[q]);
    assert a.op in before && !a.Call? ==> TenantOf(before[a.op]) != t;
    assert a.op in after && !(a.Call? && Empty(a.req)) ==> TenantOf(after[a.op]) != t;
  }

  /** Neither does any other step of another tenant. */
  lemma ForeignStep(e: State, a: Action, t: TenantId)
    requires Enabled(e, a) && !a.Write? && (if a.Call? then a.req.tenant else TenantOf(e.ops[a.op])) != t
    ensures Mine(Next(e, a), t) == Mine(e, t)
  {
    ForeignOps(e, a, t);
    if a.Log? {
      EntriesGrow(e.audit, e.ops[a.op].entry, t);
    } else if a.Resume? {
      PublicationsGrow(e.published, Publication(e.ops[a.op].req.tenant, MessageOf(e.ops[a.op])), t);
    }
  }

  /** t's read is answered from t's part. */
  lemma OwnRead(e: State, a: Action, t: TenantId)
    requires Enabled(e, a) && a.Read? && TenantOf(e.ops[a.op]) == t
    ensures Enabled(Mine(e, t), a)
    ensures Next(Mine(e, t), a) == Mine(Next(e, a), t) && ReplyAt(Mine(e, t), a) == ReplyAt(e, a)
  {
    var p := Mine(e, t);
    assert AnswerAllowed(p.incidents, p.ops[a.op].req, a.answer);
    assert AfterRead(p.incidents, p.ops[a.op].req, a.answer) == AfterRead(e.incidents, e.ops[a.op].req, a.answer);
    assert Next(p, a).ops == Mine(Next(e, a), t).ops;
  }

  lemma WrittenOwn(m: Incidents, o: Op, newId: IncidentId, now: Time)
    requires (o.Creating? || o.Patching?) && newId !in m
    ensures Written(IncidentsOf(m, o.req.tenant), o, newId, now) == IncidentsOf(Written(m, o, newId, now), o.req.tenant)
    ensures AfterWrite(IncidentsOf(m, o.req.tenant), o, newId, now) == AfterWrite(m, o, newId, now)
  {
  }

  /** t's write changes t's part alone, and in the same way. */
  lemma OwnWrite(e: State, a: Action, t: TenantId)
    requires Enabled(e, a) && a.Write? && TenantOf(e.ops[a.op]) == t
    ensures Enabled(Mine(e, t), a)
    ensures Next(Mine(e, t), a) == Mine(Next(e, a), t) && ReplyAt(Mine(e, t), a) == ReplyAt(e, a)
  {
    var p := Mine(e, t);
    var o := e.ops[a.op];
    assert p.ops[a.op] == o;
    WrittenOwn(e.incidents, o, a.newId, a.now);
    WriteKeepsOwner(e, a);
    assert Next(p, a).ops == Mine(Next(e, a), t).ops;
  }

  lemma OwnOtherStep(e: State, a: Action, t: TenantId)
    requires Enabled(e, a) && !a.Read? && !a.Write?
    requires (if a.Call? then a.req.tenant else TenantOf(e.ops[a.op])) == t
    ensures Enabled(Mine(e, t), a)
    ensures Next(Mine(e, t), a) == Mine(Next(e, a), t) && ReplyAt(Mine(e, t), a) == ReplyAt(e, a)
  {
    if a.Log? {
      EntriesGrow(e.audit, e.ops[a.op].entry, t);
    }
    if a.Resume? {
      PublicationsGrow(e.published, Publication(e.ops[a.op].req.tenant, MessageOf(e.ops[a.op])), t);
    }
    assert Next(Mine(e, t), a).ops == Mine(Next(e, a), t).ops;
    assert Next(Mine(e, t), a).incidents == Mine(Next(e, a), t).incidents;
  }

  /** A listing depends on the documents it is about alone. */
  lemma ListingIsOwn<T>(m: map<nat, T>, own: map<nat, T>, keys: Keys, spec: PageSpec)
    requires forall id | id in keys :: id in m && id in own && own[id] == m[id]
    ensures Listed(own, keys, spec) == Listed(m, keys, spec)
  {
    var ids := Cut(Sorted(keys), spec);
    SortedIsStored(m, keys);
    forall i | 0 <= i < |ids|
      ensures ids[i] in keys
    {
      assert ids[i] in Sorted(keys);
    }
    RowsAtEach(m, ids);
    RowsAtEach(own, ids);
  }

  lemma ReadsAreOwn(s: Site, step: Step, t: TenantId)
    requires step.ReadIncidents? || step.ReadChecks? || step.ReadAudit?
    requires step.t == t
    ensures ResultOf(Part(s, t), step) == ResultOf(s, step)
  {
    var p := Part(s, t);
    match step
    case ReadIncidents(_, q) =>
      var keys := IncidentKeys(s.engine.incidents, t, q);
      assert IncidentKeys(p.engine.incidents, t, q) == keys;
      ListingIsOwn(s.engine.incidents, p.engine.incidents, keys, RepoPagination(q.page, q.limit));
    case ReadChecks(_, q) =>
      var keys := CheckKeys(s.checks, t, q);
      assert CheckKeys(p.checks, t, q) == keys;
      ListingIsOwn(s.checks, p.checks, keys, ParsePagination(q.page, q.limit));
    case ReadAudit(_, _) =>
      OwnEntriesAreOwn(s.engine.audit, t);
  }

  function ChecksOf(m: Checks, t: TenantId): Checks {
    map c | c in m && m[c].tenant == t :: m[c]
  }

  /** A request about checks touches its own tenant's alone. */
  lemma RequestSeparates(m: Checks, req: CheckRequest, newId: CheckId, t: TenantId)
    requires newId !in m
    ensures req.tenant != t ==> ChecksOf(ChecksAfter(m, req, newId), t) == ChecksOf(m, t)
    ensures req.tenant == t ==>
              && ChecksAfter(ChecksOf(m, t), req, newId) == ChecksOf(ChecksAfter(m, req, newId), t)
              && CheckReplyTo(ChecksOf(m, t), req, newId) == CheckReplyTo(m, req, newId)
  {
  }

  /** So does the write of a probe result. */
  lemma ProbeSeparates(m: Checks, u: TenantId, c: CheckId, last: LastResult, t: TenantId)
    requires c in m ==> m[c].tenant == u
    ensures u != t ==> ChecksOf(Recorded(m, c, last), t) == ChecksOf(m, t)
    ensures u == t ==> Recorded(ChecksOf(m, t), c, last) == ChecksOf(Recorded(m, c, last), t)
  {
  }

  lemma StepSeparates(s: Site, step: Step, t: TenantId)
    requires CanStep(s, step)
    ensures Actor(s, step) != t ==> Part(After(s, step), t) == Part(s, t)
    ensures Actor(s, step) == t ==>
              && CanStep(Part(s, t), step)
              && Actor(Part(s, t), step) == t
              && After(Part(s, t), step) == Part(After(s, step), t)
              && ResultOf(Part(s, t), step) == ResultOf(s, step)
  {
    match step
    case Engine(a) =>
      if Actor(s, step) != t {
        if a.Write? { ForeignWrite(s.engine, a, t); } else { ForeignStep(s.engine, a, t); }
      } else if a.Read? {
        OwnRead(s.engine, a, t);
      } else if a.Write? {
        OwnWrite(s.engine, a, t);
      } else {
        OwnOtherStep(s.engine, a, t);
      }
    case Crud(req, newId) => RequestSeparates(s.checks, req, newId, t);
    case ProbeWrites(u, c, last) => ProbeSeparates(s.checks, u, c, last, t);
    case _ =>
      if step.t == t {
        ReadsAreOwn(s, step, t);
      }
  }

  /**
   Deleting every other tenant's operations from any run, however interleaved, changes neither what tenant t is
   answered nor any of t's incidents, checks, audit entries, messages or operations in flight.
   */
  lemma {:induction false} OtherTenantsDoNotMatter(s: Site, run: seq<Step>, t: TenantId)
    requires Possible(s, run)
    ensures Possible(Part(s, t), Own(s, run, t))
    ensures Outcome(Part(s, t), Own(s, run, t)) == Part(Outcome(s, run), t)
    ensures ResultsFor(Part(s, t), Own(s, run, t), t) == ResultsFor(s, run, t)
    decreases |run|
  {
    if run != [] {
      var s' := After(s, run[0]);
      StepSeparates(s, run[0], t);
      OtherTenantsDoNotMatter(s', run[1..], t);
      if Actor(s, run[0]) == t {
        assert Own(s, run, t)[1..] == Own(s', run[1..], t);
      } else {
        assert Own(s, run, t) == Own(s', run[1..], t);
      }
    }
  }
}

/**
 What a tenant's clients hear about an incident is its audit trail
 (the publishes and audit calls of src/modules/incident/incident.service.ts:99-114, 140-154, 226-243).
 */
module Announcements {
  import opened Common
  import opened IncidentModel
  import opened IncidentEngine
  import opened AuditTrail

  /** The incident a message is about. */
  function Subject(message: Message): Option<IncidentId> {
    match message
    case IncidentOpened(id, _) => Some(id)
    case IncidentResolved(id, _) => Some(id)
    case IncidentUpdated(id) => Some(id)
    case _ => None
  }

  /** The messages about one incident, on all channels, oldest first. */
  function About(published: seq<Publication>, id: IncidentId): seq<Publication> {
    if published == [] then []
    else
      var rest := About(published[..|published| - 1], id);
      var last := published[|published| - 1];
      if Subject(last.message) == Some(id) then rest + [last] else rest
  }

  /** How an audit entry reads as a message on its tenant's channel. */
  function Announcement(e: AuditEntry): Publication {
    Publication(e.tenant,
                match e.action
                case OpenAction(c) => IncidentOpened(e.target, c)
                case ResolveAction(c) => IncidentResolved(e.target, c)
                case UpdateAction(_, _, _) => IncidentUpdated(e.target))
  }

  function Announced(trail: seq<AuditEntry>): seq<Publication> {
    if trail == [] then [] else Announced(Front(trail)) + [Announcement(Last(trail))]
  }

  /** Is operation `o` about to insert its entry about `id`? */
  predicate LoggingAbout(o: Op, id: IncidentId) {
    o.Logging? && o.entry.target == id
  }

  /** Everything heard about `id` is logged, but for the one entry whose insert is out. */
  ghost predicate Heard(s: State, id: IncidentId) {
    var heard := About(s.published, id);
    var trail := EntriesFor(s.audit, id);
    && (forall q | q in s.ops && LoggingAbout(s.ops[q], id) :: heard == Announced(trail) + [Announcement(s.ops[q].entry)])
    && ((forall q | q in s.ops :: !LoggingAbout(s.ops[q], id)) ==> heard == Announced(trail))
  }

  lemma {:induction false} AboutAppend(published: seq<Publication>, p: Publication, id: IncidentId)
    ensures About(published + [p], id) ==
            if Subject(p.message) == Some(id) then About(published, id) + [p] else About(published, id)
  {
    assert (published + [p])[..|published + [p]| - 1] == published;
  }

  lemma {:induction false} AnnouncedAppend(trail: seq<AuditEntry>, e: AuditEntry)
    ensures Announced(trail + [e]) == Announced(trail) + [Announcement(e)]
  {
    assert Front(trail + [e]) == trail;
  }

  lemma LoggingIsOwed(o: Op, id: IncidentId)
    ensures LoggingAbout(o, id) ==> Target(o) == Some(id)
  {
  }

  /** The publish and the audit call of one operation say the same. */
  lemma ResumeHeard(s: State, a: Action, id: IncidentId)
    requires Enabled(s, a) && a.Resume? && OneOwed(s, id) && WellAddressed(s) && Heard(s, id)
    ensures Heard(Next(s, a), id)
  {
    var s' := Next(s, a);
    var o := s.ops[a.op];
    var entry := EntryOf(o, a.now);
    var p := Publication(o.req.tenant, MessageOf(o));
    assert Announcement(entry) == p && Subject(p.message) == Some(entry.target);
    AboutAppend(s.published, p, id);
    if entry.target == id {
      assert Target(o) == Some(id);
      forall q | q in s.ops
        ensures !LoggingAbout(s.ops[q], id)
      {
        LoggingIsOwed(s.ops[q], id);
      }
      assert forall q | q in s'.ops && LoggingAbout(s'.ops[q], id) :: q == a.op;
      assert LoggingAbout(s'.ops[a.op], id);
    } else {
      assert forall q | q in s.ops && q != a.op :: q in s'.ops && s'.ops[q] == s.ops[q];
    }
  }

  /** The insert moves the outstanding entry to the end of the log. */
  lemma LogHeard(s: State, a: Action, id: IncidentId)
    requires Enabled(s, a) && a.Log? && OneOwed(s, id) && Heard(s, id)
    ensures Heard(Next(s, a), id)
  {
    var s' := Next(s, a);
    var entry := s.ops[a.op].entry;
    EntriesAppend(s.audit, entry, id);
    assert forall q | q in s.ops && q != a.op :: q in s'.ops && s'.ops[q] == s.ops[q];
    if entry.target == id {
      assert LoggingAbout(s.ops[a.op], id) && Target(s.ops[a.op]) == Some(id);
      AnnouncedAppend(EntriesFor(s.audit, id), entry);
      forall q | q in s'.ops
        ensures !LoggingAbout(s'.ops[q], id)
      {
        LoggingIsOwed(s.ops[q], id);
      }
    }
  }

  /** No other step publishes, logs, or changes which entry is outstanding. */
  lemma OtherStepHeard(s: State, a: Action, id: IncidentId)
    requires Enabled(s, a) && Orderly(s, a, id) && !a.Resume? && !a.Log? && Heard(s, id)
    ensures Heard(Next(s, a), id)
  {
    var s' := Next(s, a);
    assert s'.published == s.published && s'.audit == s.audit;
    forall q
      ensures q in s'.ops && LoggingAbout(s'.ops[q], id) <==> q in s.ops && LoggingAbout(s.ops[q], id)
      ensures q in s.ops && LoggingAbout(s.ops[q], id) ==> q in s'.ops && s'.ops[q] == s.ops[q]
    {
    }
  }

  lemma {:induction false} RunHeard(s: State, run: seq<Action>, id: IncidentId)
    requires Valid(s, run) && OrderlyRun(s, run, id) && TrailInv(s, id) && WellAddressed(s) && Heard(s, id)
    ensures Heard(Exec(s, run), id)
    decreases |run|
  {
    if run != [] {
      var a := run[0];
      StepTold(s, a, id);
      if a.Resume? {
        ResumeHeard(s, a, id);
      } else if a.Log? {
        LogHeard(s, a, id);
      } else {
        OtherStepHeard(s, a, id);
      }
      RunHeard(Next(s, a), run[1..], id);
    }
  }

  /**
   After any run from the empty service that is orderly about an incident, once no audit insert about it is
   outstanding: the messages published about it are exactly its audit entries, in order, each on its own tenant's channel.
   */
  lemma {:induction false} ClientsHearTheTrail(run: seq<Action>, id: IncidentId)
    requires Valid(EMPTY_STATE, run) && OrderlyRun(EMPTY_STATE, run, id) && AuditTrail.Settled(Exec(EMPTY_STATE, run), id)
    ensures About(Exec(EMPTY_STATE, run).published, id) == Announced(EntriesFor(Exec(EMPTY_STATE, run).audit, id))
  {
    assert Told(EMPTY_STATE, id);
    RunHeard(EMPTY_STATE, run, id);
    var s := Exec(EMPTY_STATE, run);
    forall q | q in s.ops
      ensures !LoggingAbout(s.ops[q], id)
    {
      LoggingIsOwed(s.ops[q], id);
    }
  }
}

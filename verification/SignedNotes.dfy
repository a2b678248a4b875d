/**
 The audit trail of an incident accounts for its notes: who wrote each of them, in their order
 (src/modules/incident/incident.service.ts:216-237).
 */
module SignedNotes {
  import opened Common
  import opened IncidentModel
  import opened IncidentEngine
  import opened AuditTrail

  /** The authors of some notes, in order. */
  function Authors(notes: seq<Note>): seq<Option<ActorId>> {
    if notes == [] then [] else Authors(notes[..|notes| - 1]) + [Some(notes[|notes| - 1].author)]
  }

  /** Who an entry says wrote a note, if it speaks of one. */
  function Signer(e: AuditEntry): seq<Option<ActorId>> {
    if e.action.UpdateAction? && e.action.hasNote then [e.actor] else []
  }

  /** Who, according to a trail, wrote notes, in order. */
  function Signers(trail: seq<AuditEntry>): seq<Option<ActorId>> {
    if trail == [] then [] else Signers(Front(trail)) + Signer(Last(trail))
  }

  /** What the entry an operation owes says about notes. */
  function OwedSigner(o: Op): seq<Option<ActorId>> {
    match o
    case Replying(_, _, _, _) => Signer(EntryOf(o, 0))
    case Logging(entry) => Signer(entry)
    case _ => []
  }

  /** The trail of `id` accounts for its notes, but for the one the entry still owed is about. */
  ghost predicate Signed(s: State, id: IncidentId) {
    var authors, signers := Authors(NotesOf(s.incidents, id)), Signers(EntriesFor(s.audit, id));
    && (forall q | q in s.ops && Target(s.ops[q]) == Some(id) :: authors == signers + OwedSigner(s.ops[q]))
    && (AuditTrail.Settled(s, id) ==> authors == signers)
  }

  lemma {:induction false} AuthorsAppend(notes: seq<Note>, note: Note)
    ensures Authors(notes + [note]) == Authors(notes) + [Some(note.author)]
  {
    assert (notes + [note])[..|notes + [note]| - 1] == notes;
  }

  lemma {:induction false} SignersAppend(trail: seq<AuditEntry>, e: AuditEntry)
    ensures Signers(trail + [e]) == Signers(trail) + Signer(e)
  {
    assert Front(trail + [e]) == trail;
  }

  /** The entry a write on `id` owes is about the note it adds, if any. */
  lemma WriteOwesSigner(s: State, a: Action, id: IncidentId)
    requires Enabled(s, a) && TrailInv(s, id) && WellAddressed(s) && a.Write?
    requires if s.ops[a.op].Creating? then a.newId == id else s.ops[a.op].id == id
    ensures var s' := Next(s, a);
            && a.op in s'.ops
            && Authors(NotesOf(s'.incidents, id)) == Authors(NotesOf(s.incidents, id)) + OwedSigner(s'.ops[a.op])
  {
    var s' := Next(s, a);
    var o := s.ops[a.op];
    assert o.Patching? ==> Patches(o, id);
    assert s'.ops[a.op].Replying? && s'.ops[a.op].req == o.req;
    assert NotesOf(s'.incidents, id) == NotesOf(s.incidents, id) + NoteWritten(s, a, id);
    if o.Patching? && o.req.UpdateIncident? && o.req.note.Some? {
      AuthorsAppend(NotesOf(s.incidents, id), Note(o.req.actor, a.now, o.req.note.value));
    }
  }

  lemma WriteSigns(s: State, a: Action, id: IncidentId)
    requires Enabled(s, a) && Orderly(s, a, id) && TrailInv(s, id) && WellAddressed(s) && Signed(s, id) && a.Write?
    requires if s.ops[a.op].Creating? then a.newId == id else s.ops[a.op].id == id
    ensures Signed(Next(s, a), id)
  {
    var s' := Next(s, a);
    WriteOwes(s, a, id);
    WriteOwesSigner(s, a, id);
    assert AuditTrail.Settled(s, id);
    assert Target(s'.ops[a.op]) == Some(id) && s'.audit == s.audit;
    assert forall q | q in s'.ops && Target(s'.ops[q]) == Some(id) :: q == a.op;
  }

  /** A write on another incident leaves the notes of `id` and what is owed about it. */
  lemma WriteElsewhereSigns(s: State, a: Action, id: IncidentId)
    requires Enabled(s, a) && WellAddressed(s) && Signed(s, id) && a.Write?
    requires if s.ops[a.op].Creating? then a.newId != id else s.ops[a.op].id != id
    ensures Signed(Next(s, a), id)
  {
    var s' := Next(s, a);
    assert NotesOf(s'.incidents, id) == NotesOf(s.incidents, id);
    forall q | q in s'.ops && Target(s'.ops[q]) == Some(id)
      ensures q in s.ops && s'.ops[q] == s.ops[q]
    {
    }
    if AuditTrail.Settled(s', id) {
      assert forall q | q in s.ops && q != a.op :: q in s'.ops && s'.ops[q] == s.ops[q];
      assert AuditTrail.Settled(s, id);
    }
  }

  /** An audit insert moves what is owed to the end of the trail. */
  lemma LogSigns(s: State, a: Action, id: IncidentId)
    requires Enabled(s, a) && a.Log? && OneOwed(s, id) && Signed(s, id)
    ensures Signed(Next(s, a), id)
  {
    var s' := Next(s, a);
    var entry := s.ops[a.op].entry;
    EntriesAppend(s.audit, entry, id);
    assert forall q | q in s.ops && q != a.op :: q in s'.ops && s'.ops[q] == s.ops[q];
    if entry.target == id {
      assert Target(s.ops[a.op]) == Some(id);
      SignersAppend(EntriesFor(s.audit, id), entry);
      assert AuditTrail.Settled(s', id);
    } else if AuditTrail.Settled(s', id) {
      assert AuditTrail.Settled(s, id);
    }
  }

  /** No other step writes a note, or owes or logs an entry. */
  lemma OtherStepSigns(s: State, a: Action, id: IncidentId)
    requires Enabled(s, a) && Orderly(s, a, id) && !a.Write? && !a.Log? && Signed(s, id)
    ensures Signed(Next(s, a), id)
  {
    var s' := Next(s, a);
    assert s'.audit == s.audit && s'.incidents == s.incidents;
    forall q | q in s'.ops && Target(s'.ops[q]).Some?
      ensures q in s.ops && Target(s'.ops[q]) == Target(s.ops[q]) && OwedSigner(s'.ops[q]) == OwedSigner(s.ops[q])
    {
    }
    if AuditTrail.Settled(s', id) {
      forall q | q in s.ops
        ensures Target(s.ops[q]) != Some(id)
      {
        assert q in s'.ops || q == a.op;
      }
      assert AuditTrail.Settled(s, id);
    }
  }

  lemma {:induction false} RunSigned(s: State, run: seq<Action>, id: IncidentId)
    requires Valid(s, run) && OrderlyRun(s, run, id) && TrailInv(s, id) && WellAddressed(s) && Signed(s, id)
    ensures Signed(Exec(s, run), id)
    decreases |run|
  {
    if run != [] {
      var a := run[0];
      StepTold(s, a, id);
      if a.Log? {
        LogSigns(s, a, id);
      } else if !a.Write? {
        OtherStepSigns(s, a, id);
      } else if (if s.ops[a.op].Creating? then a.newId == id else s.ops[a.op].id == id) {
        WriteSigns(s, a, id);
      } else {
        WriteElsewhereSigns(s, a, id);
      }
      RunSigned(Next(s, a), run[1..], id);
    }
  }

  /**
   After any run from the empty service that is orderly about an incident, once no audit insert about it is outstanding:
   the authors of its notes are, in order, the actors of those entries that speak of a note.
   */
  lemma {:induction false} EveryNoteIsSigned(run: seq<Action>, id: IncidentId)
    requires Valid(EMPTY_STATE, run) && OrderlyRun(EMPTY_STATE, run, id) && AuditTrail.Settled(Exec(EMPTY_STATE, run), id)
    ensures var s := Exec(EMPTY_STATE, run);
            Authors(NotesOf(s.incidents, id)) == Signers(EntriesFor(s.audit, id))
  {
    assert Told(EMPTY_STATE, id);
    RunSigned(EMPTY_STATE, run, id);
  }
}

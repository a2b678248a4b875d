/**
 The audit trail of an incident tells its whole story
 (src/modules/incident/incident.service.ts with src/modules/audit/audit.service.ts).
 */
module AuditTrail {
  import opened Common
  import opened IncidentModel
  import opened IncidentEngine
  import opened Serialisation

  /** The entries about one incident, oldest first. */
  function EntriesFor(audit: seq<AuditEntry>, id: IncidentId): seq<AuditEntry> {
    if audit == [] then []
    else
      var rest := EntriesFor(audit[..|audit| - 1], id);
      if audit[|audit| - 1].target == id then rest + [audit[|audit| - 1]] else rest
  }

  function Last(trail: seq<AuditEntry>): AuditEntry
    requires trail != []
  {
    trail[|trail| - 1]
  }

  function Front(trail: seq<AuditEntry>): seq<AuditEntry>
    requires trail != []
  {
    trail[..|trail| - 1]
  }

  /** The status an action leaves behind. */
  function StatusAfter(action: AuditAction): Status {
    match action
    case OpenAction(_) => Open
    case ResolveAction(_) => Resolved
    case UpdateAction(_, next, _) => next
  }

  /** The status a reader of the trail arrives at. */
  function Replay(trail: seq<AuditEntry>): Option<Status> {
    if trail == [] then None else Some(StatusAfter(Last(trail).action))
  }

  /** May `action` come next after a trail that replays to `status`? */
  predicate Follows(status: Option<Status>, action: AuditAction) {
    match action
    case OpenAction(_) => status.None?
    case ResolveAction(_) => status.Some? && status.value.Active()
    case UpdateAction(previous, next, _) => status == Some(previous) && MayMove(previous, next)
  }

  /** Each entry starts where the one before it ended. */
  predicate Coherent(trail: seq<AuditEntry>) {
    trail != [] ==> Coherent(Front(trail)) && Follows(Replay(Front(trail)), Last(trail).action)
  }

  /** The number of entries that change the status of an incident already open. */
  function StatusChanges(trail: seq<AuditEntry>): nat {
    if trail == [] then 0
    else
      StatusChanges(Front(trail))
      + if Replay(Front(trail)).Some? && Replay(Front(trail)) != Replay(trail) then 1 else 0
  }

  /** The entry an operation still owes the log: its write took effect, its audit insert has not. */
  function Owed(o: Op): Option<AuditAction> {
    match o
    case Replying(_, _, _, _) => Some(EntryOf(o, 0).action)
    case Logging(entry) => Some(entry.action)
    case _ => None
  }

  /** The incident the owed entry is about. */
  function Target(o: Op): Option<IncidentId> {
    match o
    case Replying(_, _, _, _) => Some(EntryOf(o, 0).target)
    case Logging(entry) => Some(entry.target)
    case _ => None
  }

  /**
   Operations on incident `id` do not overlap, up to and including their audit entries, and no audit insert about it is
   lost: an update of `id` waits for other updates of it in their windows and for entries owed about it. Operations on
   other incidents are free.
   */
  ghost predicate Orderly(s: State, a: Action, id: IncidentId)
    requires Enabled(s, a)
  {
    && (a.Write? && Patches(s.ops[a.op], id) ==>
          forall q | q in s.ops && q != a.op :: !Patches(s.ops[q], id) && Target(s.ops[q]) != Some(id))
    && (a.Fail? ==> Target(s.ops[a.op]) != Some(id))
  }

  /** Is operation `o` in the window of an update of `id`? */
  predicate Patches(o: Op, id: IncidentId) {
    o.Patching? && o.id == id
  }

  ghost predicate OrderlyRun(s: State, run: seq<Action>, id: IncidentId)
    requires Valid(s, run)
    decreases |run|
  {
    run != [] ==> Orderly(s, run[0], id) && OrderlyRun(Next(s, run[0]), run[1..], id)
  }

  /**
   The log about `id` is coherent and replays to the stored status; while some operation still owes an entry about
   `id`, that one entry comes next and leads to the stored status.
   */
  ghost predicate Told(s: State, id: IncidentId) {
    var trail := EntriesFor(s.audit, id);
    && Coherent(trail)
    && (forall q | q in s.ops && Target(s.ops[q]) == Some(id) ::
          && Follows(Replay(trail), Owed(s.ops[q]).value)
          && id in s.incidents && s.incidents[id].status == StatusAfter(Owed(s.ops[q]).value))
    && (Settled(s, id) ==>
          Replay(trail) == if id in s.incidents then Some(s.incidents[id].status) else None)
  }

  /** No audit entry about `id` is outstanding. */
  ghost predicate Settled(s: State, id: IncidentId) {
    forall q | q in s.ops :: Target(s.ops[q]) != Some(id)
  }

  ghost predicate OneOwed(s: State, id: IncidentId) {
    forall q, r | q in s.ops && r in s.ops && Target(s.ops[q]) == Some(id) && Target(s.ops[r]) == Some(id) :: q == r
  }

  /** Updates of `id` in their windows would be decided the same way now. */
  ghost predicate Current(s: State, id: IncidentId) {
    && (forall q | q in s.ops && s.ops[q].Finding? :: !Empty(s.ops[q].req))
    && (forall q | q in s.ops && Patches(s.ops[q], id) :: UpToDate(s.incidents, s.ops[q]))
  }

  ghost predicate TrailInv(s: State, id: IncidentId) {
    Current(s, id) && OneOwed(s, id) && Told(s, id)
  }

  lemma {:induction false} EntriesAppend(audit: seq<AuditEntry>, e: AuditEntry, id: IncidentId)
    ensures EntriesFor(audit + [e], id) == if e.target == id then EntriesFor(audit, id) + [e] else EntriesFor(audit, id)
  {
    assert (audit + [e])[..|audit + [e]| - 1] == audit;
  }

  /** An update is written to the incident its request names; only reads write nothing. */
  ghost predicate WellAddressed(s: State) {
    && (forall q | q in s.ops && s.ops[q].Creating? :: s.ops[q].req.OpenIncident?)
    && (forall q | q in s.ops && (s.ops[q].Patching? || s.ops[q].Replying?) ::
          !s.ops[q].req.GetIncident? && (s.ops[q].req.UpdateIncident? ==> s.ops[q].req.id == s.ops[q].id))
  }

  lemma StepCurrent(s: State, a: Action, id: IncidentId)
    requires Enabled(s, a) && Orderly(s, a, id) && Current(s, id)
    ensures Current(Next(s, a), id)
  {
    var s' := Next(s, a);
    if a.Write? {
      forall q | q in s'.ops && Patches(s'.ops[q], id)
        ensures UpToDate(s'.incidents, s'.ops[q])
      {
        assert q != a.op && s'.ops[q] == s.ops[q] && UpToDate(s.incidents, s.ops[q]);
        assert id in s'.incidents && s'.incidents[id] == s.incidents[id];
      }
    }
  }

  /** After an orderly write on `id`, the entry it owes leads from the old status to the new one. */
  lemma WriteOwes(s: State, a: Action, id: IncidentId)
    requires Enabled(s, a) && Orderly(s, a, id) && TrailInv(s, id) && a.Write?
    requires WellAddressed(s)
    requires if s.ops[a.op].Creating? then a.newId == id else s.ops[a.op].id == id
    ensures Told(Next(s, a), id) && OneOwed(Next(s, a), id)
  {
    var s' := Next(s, a);
    assert s'.ops[a.op].Replying? && Target(s'.ops[a.op]) == Some(id);
    assert Settled(s, id);
    assert forall q | q in s'.ops && q != a.op :: q in s.ops && s'.ops[q] == s.ops[q];
  }

  /** A write on another incident owes and logs nothing about `id`. */
  lemma WriteElsewhereTells(s: State, a: Action, id: IncidentId)
    requires Enabled(s, a) && TrailInv(s, id) && a.Write?
    requires if s.ops[a.op].Creating? then a.newId != id else s.ops[a.op].id != id
    requires WellAddressed(s)
    ensures Told(Next(s, a), id) && OneOwed(Next(s, a), id)
  {
    var s' := Next(s, a);
    assert id in s'.incidents <==> id in s.incidents;
    assert id in s.incidents ==> s'.incidents[id] == s.incidents[id];
    forall q | q in s'.ops && Target(s'.ops[q]) == Some(id)
      ensures q in s.ops && s'.ops[q] == s.ops[q]
    {
    }
    if Settled(s', id) {
      assert forall q | q in s.ops && q != a.op :: q in s'.ops && s'.ops[q] == s.ops[q];
      assert Settled(s, id);
    }
  }

  lemma StepAddressed(s: State, a: Action)
    requires Enabled(s, a) && WellAddressed(s)
    ensures WellAddressed(Next(s, a))
  {
  }

  /** An audit insert moves the owed entry to the end of the log. */
  lemma LogTells(s: State, op: OpId, s': State, id: IncidentId)
    requires op in s.ops && s.ops[op].Logging? && OneOwed(s, id) && Told(s, id)
    requires s' == s.(ops := s.ops - {op}, audit := s.audit + [s.ops[op].entry])
    ensures Told(s', id)
  {
    var entry := s.ops[op].entry;
    var trail := EntriesFor(s.audit, id);
    EntriesAppend(s.audit, entry, id);
    assert forall q | q in s.ops :: q == op || q in s'.ops;
    if entry.target == id {
      assert Target(s.ops[op]) == Some(id);
      assert Front(trail + [entry]) == trail && Last(trail + [entry]) == entry;
    } else if Settled(s', id) {
      assert Settled(s, id);
    }
  }

  /** Every other step owes and logs nothing new. */
  lemma OtherStepTells(s: State, a: Action, id: IncidentId)
    requires Enabled(s, a) && Orderly(s, a, id) && Told(s, id) && !a.Write? && !a.Log?
    ensures Told(Next(s, a), id)
  {
    var s' := Next(s, a);
    assert s'.audit == s.audit && s'.incidents == s.incidents;
    forall q | q in s'.ops && Target(s'.ops[q]).Some?
      ensures q in s.ops && Target(s'.ops[q]) == Target(s.ops[q]) && Owed(s'.ops[q]) == Owed(s.ops[q])
    {
    }
    if Settled(s', id) {
      forall q | q in s.ops
        ensures Target(s.ops[q]) != Some(id)
      {
        assert q in s'.ops || q == a.op;
      }
      assert Settled(s, id);
    }
  }

  lemma StepOneOwed(s: State, a: Action, id: IncidentId)
    requires Enabled(s, a) && OneOwed(s, id) && !a.Write?
    ensures OneOwed(Next(s, a), id)
  {
    var s' := Next(s, a);
    forall q | q in s'.ops && Target(s'.ops[q]).Some?
      ensures q in s.ops && Target(s'.ops[q]) == Target(s.ops[q])
    {
    }
  }

  lemma StepTold(s: State, a: Action, id: IncidentId)
    requires Enabled(s, a) && Orderly(s, a, id) && TrailInv(s, id) && WellAddressed(s)
    ensures TrailInv(Next(s, a), id) && WellAddressed(Next(s, a))
  {
    StepCurrent(s, a, id);
    StepAddressed(s, a);
    if a.Write? {
      if (if s.ops[a.op].Creating? then a.newId == id else s.ops[a.op].id == id) {
        WriteOwes(s, a, id);
      } else {
        WriteElsewhereTells(s, a, id);
      }
    } else {
      StepOneOwed(s, a, id);
      if a.Log? {
        LogTells(s, a.op, Next(s, a), id);
      } else {
        OtherStepTells(s, a, id);
      }
    }
  }

  lemma {:induction false} RunTold(s: State, run: seq<Action>, id: IncidentId)
    requires Valid(s, run) && OrderlyRun(s, run, id) && TrailInv(s, id) && WellAddressed(s)
    ensures TrailInv(Exec(s, run), id)
    decreases |run|
  {
    if run != [] {
      StepTold(s, run[0], id);
      RunTold(Next(s, run[0]), run[1..], id);
    }
  }

  // ----- What a coherent trail says -----

  /** No status ever goes back along a coherent trail, and each change uses up one step of the ladder of three. */
  lemma {:induction false} CoherentClimbs(trail: seq<AuditEntry>)
    requires Coherent(trail)
    ensures trail != [] ==> StatusChanges(trail) <= Replay(trail).value.Rank()
    ensures forall k | 0 < k <= |trail| :: Replay(trail[..k]).value.Rank() <= Replay(trail).value.Rank()
  {
    if trail != [] {
      CoherentClimbs(Front(trail));
      forall k | 0 < k <= |trail|
        ensures Replay(trail[..k]).value.Rank() <= Replay(trail).value.Rank()
      {
        if k < |trail| {
          assert trail[..k] == Front(trail)[..k];
          assert Front(trail) == Front(trail)[..|trail| - 1];
        } else {
          assert trail[..k] == trail;
        }
      }
    }
  }

  /**
   From the empty service, after any run orderly about an incident: its trail is coherent, never goes back, and changes
   status at most twice; once its entries have all been logged, the trail replays to its stored status.
   */
  lemma {:induction false} AuditTellsTheStory(run: seq<Action>, id: IncidentId)
    requires Valid(EMPTY_STATE, run) && OrderlyRun(EMPTY_STATE, run, id)
    ensures var s := Exec(EMPTY_STATE, run);
            var trail := EntriesFor(s.audit, id);
            && Coherent(trail)
            && StatusChanges(trail) <= 2
            && (forall j, k | 0 < j <= k <= |trail| ::
                  Replay(trail[..j]).value.Rank() <= Replay(trail[..k]).value.Rank())
            && (Settled(s, id) && id in s.incidents ==> Replay(trail) == Some(s.incidents[id].status))
            && (id !in s.incidents ==> trail == [])
  {
    var s := Exec(EMPTY_STATE, run);
    assert Told(EMPTY_STATE, id);
    RunTold(EMPTY_STATE, run, id);
    assert Told(s, id);
    var trail := EntriesFor(s.audit, id);
    CoherentClimbs(trail);
    forall j, k | 0 < j <= k <= |trail|
      ensures Replay(trail[..j]).value.Rank() <= Replay(trail[..k]).value.Rank()
    {
      CoherentPrefix(trail, k);
      CoherentClimbs(trail[..k]);
      assert trail[..k][..j] == trail[..j];
    }
  }

  lemma {:induction false} CoherentPrefix(trail: seq<AuditEntry>, k: nat)
    requires Coherent(trail) && k <= |trail|
    ensures Coherent(trail[..k])
    decreases |trail|
  {
    if k == |trail| {
      assert trail[..k] == trail;
    } else {
      assert trail[..k] == Front(trail)[..k];
      CoherentPrefix(Front(trail), k);
    }
  }
}

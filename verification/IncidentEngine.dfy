/**
 The incident service as a step machine (src/modules/incident/incident.service.ts).

 Every `await` is a yield point: an operation is a program counter with its locals (`Op`), and one step is
 either a database call taking effect or the code between two awaits. A step of one operation may fall between
 any two steps of another.
 */
module IncidentEngine {
  import opened Common
  import opened IncidentModel

  type OpId = nat

  datatype Request =
    | OpenIncident(tenant: TenantId, check: CheckId)
    | ResolveIncident(tenant: TenantId, check: CheckId)
    | UpdateIncident(tenant: TenantId, id: IncidentId, status: Option<Status>, note: Option<string>, actor: ActorId)
    | GetIncident(tenant: TenantId, id: IncidentId)

  datatype Reply =
    | Skipped
    | NothingToUpdate
    | NotFound
    | InvalidTransition(from: Status, to: Status)
    | Opened(id: IncidentId)
    | AutoResolved(id: IncidentId)
    | Document(doc: Incident)

  datatype AuditAction =
    | OpenAction(check: CheckId)
    | ResolveAction(check: CheckId)
    | UpdateAction(previous: Status, next: Status, hasNote: bool)

  datatype AuditEntry = AuditEntry(
    tenant: TenantId, actor: Option<ActorId>, action: AuditAction, target: IncidentId, ts: Time)

  datatype Message =
    | IncidentOpened(id: IncidentId, check: CheckId)
    | IncidentResolved(id: IncidentId, check: CheckId)
    | IncidentUpdated(id: IncidentId)
    | CheckFailed(check: CheckId)
    | CheckRecovered(check: CheckId)

  /** A message published on the channel `incidents:{tenant}`. */
  datatype Publication = Publication(tenant: TenantId, message: Message)

  /** Where an operation is, and the locals it holds there. */
  datatype Op =
    // the first read is out
    | Finding(req: Request)
    // the read found nothing; the insert is out
    | Creating(req: Request)
    // the read found `id`; the update is out
    | Patching(req: Request, id: IncidentId, prev: Status)
    // the write took effect
    | Replying(req: Request, id: IncidentId, prev: Status, doc: Option<Incident>)
    // the caller is gone; the audit insert is out
    | Logging(entry: AuditEntry)

  datatype State = State(
    incidents: Incidents,
    audit: seq<AuditEntry>,
    ops: map<OpId, Op>,
    published: seq<Publication>)

  /** One step, with everything the environment chooses: the document found, the fresh id, the clock. */
  datatype Action =
    | Call(op: OpId, req: Request)
    | Read(op: OpId, answer: Option<IncidentId>)
    | Write(op: OpId, newId: IncidentId, now: Time)
    | Resume(op: OpId, now: Time)
    | Log(op: OpId)
    | Fail(op: OpId)

  const EMPTY_STATE := State(map[], [], map[], [])

  /** ALLOWED_TRANSITIONS. */
  function Allowed(from: Status): set<Status> {
    match from
    case Open => {Monitoring, Resolved}
    case Monitoring => {Resolved}
    case Resolved => {}
  }

  /** The manual-update rule: a status may be repeated, or moved along the table. */
  predicate MayMove(from: Status, to: Status) {
    to == from || to in Allowed(from)
  }

  /** The answers the first read of a request may get. */
  ghost predicate AnswerAllowed(m: Incidents, req: Request, answer: Option<IncidentId>) {
    match req
    case OpenIncident(t, c) => FindOpenAnswer(m, t, c, answer)
    case ResolveIncident(t, c) => FindOpenAnswer(m, t, c, answer)
    case UpdateIncident(t, id, _, _, _) => answer == if Owned(m, t, id) then Some(id) else None
    case GetIncident(t, id) => answer == if Owned(m, t, id) then Some(id) else None
  }

  /** What the code after the first read does: answer the caller, or issue the write. */
  datatype Turn = Answer(reply: Reply) | Continue(op: Op)

  function AfterRead(m: Incidents, req: Request, answer: Option<IncidentId>): Turn
    requires answer.Some? ==> answer.value in m
  {
    match req
    case OpenIncident(_, _) =>
      if answer.Some? then Answer(Skipped) else Continue(Creating(req))
    case ResolveIncident(_, _) =>
      if answer.None? then Answer(Skipped) else Continue(Patching(req, answer.value, m[answer.value].status))
    case UpdateIncident(_, _, status, _, _) =>
      if answer.None? then
        Answer(NotFound)
      else
        var from := m[answer.value].status;
        if status.Some? && !MayMove(from, status.value)
        then Answer(InvalidTransition(from, status.value))
        else Continue(Patching(req, answer.value, from))
    case GetIncident(_, _) =>
      if answer.None? then Answer(NotFound) else Answer(Document(m[answer.value]))
  }

  /** The update a resolve or a manual request writes. */
  function ChangeOf(req: Request, now: Time): Change {
    match req
    case UpdateIncident(_, _, status, note, actor) =>
      Change(status, if status == Some(Resolved) then Some(now) else None, now,
             if note.Some? then Some(Note(actor, now, note.value)) else None)
    case _ => Change(Some(Resolved), Some(now), now, None)
  }

  /** The collection after the write an operation has issued. */
  function Written(m: Incidents, o: Op, newId: IncidentId, now: Time): Incidents {
    match o
    case Creating(OpenIncident(t, c)) => m[newId := NewIncident(t, c, now)]
    case Patching(req, id, _) => PatchById(m, req.tenant, id, ChangeOf(req, now))
    case _ => m
  }

  /** What the operation holds once its write took effect, or the error it throws. */
  function AfterWrite(m: Incidents, o: Op, newId: IncidentId, now: Time): Turn {
    var next := Written(m, o, newId, now);
    match o
    case Creating(req) =>
      Continue(Replying(req, newId, Open, if newId in next then Some(next[newId]) else None))
    case Patching(req, id, prev) =>
      if Owned(m, req.tenant, id) then Continue(Replying(req, id, prev, Some(next[id])))
      else if req.UpdateIncident? then Answer(NotFound)
      else Continue(Replying(req, id, prev, None))
    case _ => Answer(Skipped)
  }

  /** The audit entry an operation appends once its write took effect. */
  function EntryOf(o: Op, now: Time): AuditEntry
    requires o.Replying?
  {
    match o.req
    case OpenIncident(t, c) => AuditEntry(t, None, OpenAction(c), o.id, now)
    case ResolveIncident(t, c) => AuditEntry(t, None, ResolveAction(c), o.id, now)
    case UpdateIncident(t, id, status, note, actor) =>
      AuditEntry(t, Some(actor),
                 UpdateAction(o.prev, if status.Some? then status.value else o.prev, note.Some?), id, now)
    case GetIncident(t, id) => AuditEntry(t, None, UpdateAction(o.prev, o.prev, false), id, now)
  }

  function MessageOf(o: Op): Message
    requires o.Replying?
  {
    match o.req
    case OpenIncident(_, c) => IncidentOpened(o.id, c)
    case ResolveIncident(_, c) => IncidentResolved(o.id, c)
    case _ => IncidentUpdated(o.id)
  }

  function ReplyOf(o: Op): Reply
    requires o.Replying?
  {
    match o.req
    case OpenIncident(_, _) => Opened(o.id)
    case ResolveIncident(_, _) => AutoResolved(o.id)
    case _ => if o.doc.Some? then Document(o.doc.value) else NotFound
  }

  /** A manual update that names neither a status nor a note is refused before any database call. */
  predicate Empty(req: Request) {
    req.UpdateIncident? && req.status.None? && req.note.None?
  }

  ghost predicate Enabled(s: State, a: Action) {
    match a
    case Call(op, _) => op !in s.ops
    case Read(op, answer) =>
      op in s.ops && s.ops[op].Finding? && AnswerAllowed(s.incidents, s.ops[op].req, answer)
    case Write(op, newId, _) =>
      op in s.ops && (s.ops[op].Creating? || s.ops[op].Patching?) && newId !in s.incidents
    case Resume(op, _) => op in s.ops && s.ops[op].Replying?
    case Log(op) => op in s.ops && s.ops[op].Logging?
    case Fail(op) => op in s.ops
  }

  function Advance(s: State, op: OpId, turn: Turn): State {
    match turn
    case Answer(_) => s.(ops := s.ops - {op})
    case Continue(o) => s.(ops := s.ops[op := o])
  }

  function Next(s: State, a: Action): State
    requires Enabled(s, a)
  {
    match a
    case Call(op, req) => if Empty(req) then s else s.(ops := s.ops[op := Finding(req)])
    case Read(op, answer) => Advance(s, op, AfterRead(s.incidents, s.ops[op].req, answer))
    case Write(op, newId, now) =>
      Advance(s, op, AfterWrite(s.incidents, s.ops[op], newId, now))
        .(incidents := Written(s.incidents, s.ops[op], newId, now))
    case Resume(op, now) =>
      s.(ops := s.ops[op := Logging(EntryOf(s.ops[op], now))],
         published := s.published + [Publication(s.ops[op].req.tenant, MessageOf(s.ops[op]))])
    case Log(op) => s.(ops := s.ops - {op}, audit := s.audit + [s.ops[op].entry])
    case Fail(op) => s.(ops := s.ops - {op})
  }

  /** What the caller of the operation gets back in this step, if anything. */
  function ReplyAt(s: State, a: Action): Option<Reply>
    requires Enabled(s, a)
  {
    match a
    case Call(_, req) => if Empty(req) then Some(NothingToUpdate) else None
    case Read(op, answer) =>
      var turn := AfterRead(s.incidents, s.ops[op].req, answer);
      if turn.Answer? then Some(turn.reply) else None
    case Write(op, newId, now) =>
      var turn := AfterWrite(s.incidents, s.ops[op], newId, now);
      if turn.Answer? then Some(turn.reply) else None
    case Resume(op, _) => Some(ReplyOf(s.ops[op]))
    case Log(_) => None
    case Fail(_) => None
  }

  // ----- Runs -----

  ghost predicate Valid(s: State, run: seq<Action>)
    decreases |run|
  {
    run == [] || (Enabled(s, run[0]) && Valid(Next(s, run[0]), run[1..]))
  }

  ghost function Exec(s: State, run: seq<Action>): State
    requires Valid(s, run)
    decreases |run|
  {
    if run == [] then s else Exec(Next(s, run[0]), run[1..])
  }

  lemma {:induction false} Extend(s: State, run: seq<Action>, a: Action)
    requires Valid(s, run) && Enabled(Exec(s, run), a)
    ensures Valid(s, run + [a]) && Exec(s, run + [a]) == Next(Exec(s, run), a)
    decreases |run|
  {
    if run == [] {
      assert [a][1..] == [];
    } else {
      assert (run + [a])[1..] == run[1..] + [a];
      Extend(Next(s, run[0]), run[1..], a);
    }
  }

  // ----- What every interleaving keeps -----

  /** Nothing disappears, identity and opening time are fixed, notes only grow, a resolution time never goes away. */
  ghost predicate Kept(m: Incidents, m': Incidents) {
    forall id | id in m ::
      && id in m'
      && m'[id].tenant == m[id].tenant
      && m'[id].check == m[id].check
      && m'[id].openedAt == m[id].openedAt
      && m[id].notes <= m'[id].notes
      && (m[id].resolvedAt.Some? ==> m'[id].resolvedAt.Some?)
  }

  ghost predicate ResolvedHasTime(m: Incidents) {
    forall id | id in m && m[id].status.Resolved? :: m[id].resolvedAt.Some?
  }

  lemma StepKeeps(s: State, a: Action)
    requires Enabled(s, a)
    ensures Kept(s.incidents, Next(s, a).incidents)
    ensures ResolvedHasTime(s.incidents) ==> ResolvedHasTime(Next(s, a).incidents)
  {
  }

  lemma {:induction false} AnyInterleavingKeeps(s: State, run: seq<Action>)
    requires Valid(s, run)
    ensures Kept(s.incidents, Exec(s, run).incidents)
    ensures ResolvedHasTime(s.incidents) ==> ResolvedHasTime(Exec(s, run).incidents)
    decreases |run|
  {
    if run != [] {
      var s' := Next(s, run[0]);
      StepKeeps(s, run[0]);
      AnyInterleavingKeeps(s', run[1..]);
      forall id | id in s.incidents
        ensures s.incidents[id].notes <= Exec(s, run).incidents[id].notes
      {
        assert s.incidents[id].notes <= s'.incidents[id].notes <= Exec(s', run[1..]).incidents[id].notes;
      }
    }
  }

  // ----- Notes: every accepted note is kept, once, in the order of the writes -----

  function NotesOf(m: Incidents, id: IncidentId): seq<Note> {
    if id in m then m[id].notes else []
  }

  /** The note a step writes onto incident `id`. */
  function NoteWritten(s: State, a: Action, id: IncidentId): seq<Note>
    requires Enabled(s, a)
  {
    if a.Write? && s.ops[a.op].Patching? && s.ops[a.op].id == id then
      var req := s.ops[a.op].req;
      if req.UpdateIncident? && req.note.Some? && Owned(s.incidents, req.tenant, id)
      then [Note(req.actor, a.now, req.note.value)]
      else []
    else []
  }

  ghost function NotesWritten(s: State, run: seq<Action>, id: IncidentId): seq<Note>
    requires Valid(s, run)
    decreases |run|
  {
    if run == [] then [] else NoteWritten(s, run[0], id) + NotesWritten(Next(s, run[0]), run[1..], id)
  }

  /** Under any interleaving the notes of an incident are the earlier ones followed by those written in the run. */
  lemma {:induction false} NotesAreConserved(s: State, run: seq<Action>, id: IncidentId)
    requires Valid(s, run)
    ensures NotesOf(Exec(s, run).incidents, id) == NotesOf(s.incidents, id) + NotesWritten(s, run, id)
    decreases |run|
  {
    if run != [] {
      var s' := Next(s, run[0]);
      NotesAreConserved(s', run[1..], id);
      assert NotesOf(s'.incidents, id) == NotesOf(s.incidents, id) + NoteWritten(s, run[0], id);
    }
  }
}

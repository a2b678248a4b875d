/**
 Serial equivalence of the incident operations, and what overlapping read-to-write windows cost
 (src/modules/incident/incident.service.ts: find, decide, then write without a condition).
 */
module Serialisation {
  import opened Common
  import opened IncidentModel
  import opened IncidentEngine

  /** A whole operation done at one instant: its request and everything the environment chose for it. */
  datatype Tx = Tx(req: Request, answer: Option<IncidentId>, newId: IncidentId, now: Time)

  /** Does the operation get as far as a write? */
  predicate Writes(m: Incidents, tx: Tx)
    requires tx.answer.Some? ==> tx.answer.value in m
  {
    !Empty(tx.req) && AfterRead(m, tx.req, tx.answer).Continue?
  }

  ghost predicate TxEnabled(m: Incidents, tx: Tx) {
    (if Empty(tx.req) then tx.answer.None? else AnswerAllowed(m, tx.req, tx.answer))
    && (Writes(m, tx) ==> tx.newId !in m)
  }

  /** The collection after the operation, run alone. */
  function Atomic(m: Incidents, tx: Tx): Incidents
    requires tx.answer.Some? ==> tx.answer.value in m
  {
    if Writes(m, tx) then Written(m, AfterRead(m, tx.req, tx.answer).op, tx.newId, tx.now) else m
  }

  /** The caller's answer when a write's outcome is known. */
  function TurnReply(turn: Turn): Reply {
    match turn
    case Answer(r) => r
    case Continue(o) => if o.Replying? then ReplyOf(o) else Skipped
  }

  /** The caller's answer to the operation, run alone. */
  function AtomicReply(m: Incidents, tx: Tx): Reply
    requires tx.answer.Some? ==> tx.answer.value in m
  {
    if Empty(tx.req) then NothingToUpdate
    else if !Writes(m, tx) then AfterRead(m, tx.req, tx.answer).reply
    else TurnReply(AfterWrite(m, AfterRead(m, tx.req, tx.answer).op, tx.newId, tx.now))
  }

  ghost predicate SerialValid(m: Incidents, txs: seq<Tx>)
    decreases |txs|
  {
    txs == [] || (TxEnabled(m, txs[0]) && SerialValid(Atomic(m, txs[0]), txs[1..]))
  }

  ghost function SerialStore(m: Incidents, txs: seq<Tx>): Incidents
    requires SerialValid(m, txs)
    decreases |txs|
  {
    if txs == [] then m else SerialStore(Atomic(m, txs[0]), txs[1..])
  }

  ghost function SerialReplies(m: Incidents, txs: seq<Tx>): seq<Reply>
    requires SerialValid(m, txs)
    decreases |txs|
  {
    if txs == [] then [] else [AtomicReply(m, txs[0])] + SerialReplies(Atomic(m, txs[0]), txs[1..])
  }

  // ----- Windows -----

  /** An operation between its read and its write. */
  predicate InWindow(o: Op) {
    o.Creating? || o.Patching?
  }

  /** The check an operation in its window is about, with its tenant. */
  function KeyOf(m: Incidents, o: Op): Option<(TenantId, CheckId)> {
    match o
    case Creating(OpenIncident(t, c)) => Some((t, c))
    case Patching(_, id, _) => if id in m then Some((m[id].tenant, m[id].check)) else None
    case _ => None
  }

  /** When `a` writes, no other operation on the same check is inside its window. */
  ghost predicate Exclusive(s: State, a: Action)
    requires Enabled(s, a)
  {
    a.Write? ==>
      forall q | q in s.ops && q != a.op && InWindow(s.ops[q]) ::
        KeyOf(s.incidents, s.ops[q]) != KeyOf(s.incidents, s.ops[a.op])
  }

  ghost predicate Disciplined(s: State, run: seq<Action>)
    requires Valid(s, run)
    decreases |run|
  {
    run != [] ==> Exclusive(s, run[0]) && Disciplined(Next(s, run[0]), run[1..])
  }

  /** The read of an operation in its window would give the same decision if it were done again now. */
  ghost predicate UpToDate(m: Incidents, o: Op) {
    match o
    case Creating(req) => !Empty(req) && AnswerAllowed(m, req, None) && AfterRead(m, req, None) == Continue(o)
    case Patching(req, id, _) =>
      !Empty(req) && AnswerAllowed(m, req, Some(id)) && id in m && AfterRead(m, req, Some(id)) == Continue(o)
    case Finding(req) => !Empty(req)
    case _ => true
  }

  ghost predicate AllUpToDate(s: State) {
    forall q | q in s.ops :: UpToDate(s.incidents, s.ops[q])
  }

  /** A write on one check leaves the decisions taken for every other check as they were. */
  lemma WriteElsewhere(m: Incidents, o: Op, newId: IncidentId, now: Time, other: Op)
    requires InWindow(o) && newId !in m
    requires UpToDate(m, other) && KeyOf(m, other) != KeyOf(m, o)
    ensures UpToDate(Written(m, o, newId, now), other)
  {
    var m' := Written(m, o, newId, now);
    var target := if o.Creating? then newId else o.id;
    assert forall id | id in m && id != target :: id in m' && m'[id] == m[id];
    assert forall id | id in m' && id != target :: id in m;
  }

  lemma StepUpToDate(s: State, a: Action)
    requires Enabled(s, a) && Exclusive(s, a) && AllUpToDate(s)
    ensures AllUpToDate(Next(s, a))
  {
    var s' := Next(s, a);
    forall q | q in s'.ops
      ensures UpToDate(s'.incidents, s'.ops[q])
    {
      if a.Write? && q != a.op && InWindow(s.ops[q]) {
        WriteElsewhere(s.incidents, s.ops[a.op], a.newId, a.now, s.ops[q]);
      }
    }
  }

  // ----- The serial order: each operation at its write, or at the step that answers it without one -----

  ghost function Commit(s: State, a: Action): seq<Tx>
    requires Enabled(s, a)
  {
    match a
    case Call(_, req) => if Empty(req) then [Tx(req, None, 0, 0)] else []
    case Read(op, answer) =>
      if AfterRead(s.incidents, s.ops[op].req, answer).Answer?
      then [Tx(s.ops[op].req, answer, 0, 0)]
      else []
    case Write(op, newId, now) =>
      [Tx(s.ops[op].req, if s.ops[op].Creating? then None else Some(s.ops[op].id), newId, now)]
    case _ => []
  }

  ghost function Commits(s: State, run: seq<Action>): seq<Tx>
    requires Valid(s, run)
    decreases |run|
  {
    if run == [] then [] else Commit(s, run[0]) + Commits(Next(s, run[0]), run[1..])
  }

  /** The answers the callers get, in the order in which they are decided. */
  function Decided(s: State, a: Action): seq<Reply>
    requires Enabled(s, a)
  {
    match a
    case Write(op, newId, now) => [TurnReply(AfterWrite(s.incidents, s.ops[op], newId, now))]
    case Resume(_, _) => []
    case _ => var r := ReplyAt(s, a); if r.Some? then [r.value] else []
  }

  ghost function Decisions(s: State, run: seq<Action>): seq<Reply>
    requires Valid(s, run)
    decreases |run|
  {
    if run == [] then [] else Decided(s, run[0]) + Decisions(Next(s, run[0]), run[1..])
  }

  // ----- Serial equivalence -----

  /** A step changes the collection, and decides answers, exactly as its committed operation does when run alone. */
  lemma StepCommits(s: State, a: Action)
    requires Enabled(s, a) && AllUpToDate(s)
    ensures SerialValid(s.incidents, Commit(s, a))
    ensures SerialStore(s.incidents, Commit(s, a)) == Next(s, a).incidents
    ensures SerialReplies(s.incidents, Commit(s, a)) == Decided(s, a)
    ensures Commit(s, a) != [] ==> Commit(s, a) == [Commit(s, a)[0]]
    ensures Commit(s, a) != [] ==> Commit(s, a)[0].req == if a.Call? then a.req else s.ops[a.op].req
    ensures a.Write? ==> Commit(s, a) != [] && Commit(s, a)[0].newId == a.newId && Commit(s, a)[0].now == a.now
  {
    var txs := Commit(s, a);
    if txs != [] {
      assert txs[1..] == [];
      assert TxEnabled(s.incidents, txs[0]);
      assert SerialReplies(s.incidents, txs) ==
             [AtomicReply(s.incidents, txs[0])] + SerialReplies(Atomic(s.incidents, txs[0]), []);
    }
  }

  /** One operation, and then the others. */
  lemma {:induction false} SerialCons(m: Incidents, tx: Tx, txs: seq<Tx>)
    requires TxEnabled(m, tx) && SerialValid(Atomic(m, tx), txs)
    ensures SerialValid(m, [tx] + txs)
    ensures SerialStore(m, [tx] + txs) == SerialStore(Atomic(m, tx), txs)
    ensures SerialReplies(m, [tx] + txs) == [AtomicReply(m, tx)] + SerialReplies(Atomic(m, tx), txs)
  {
    assert ([tx] + txs)[1..] == txs;
  }

  /** A step commits one operation or none. */
  lemma {:induction false} CommitsOne(s: State, a: Action, rest: seq<Tx>)
    requires Enabled(s, a) && AllUpToDate(s) && SerialValid(Next(s, a).incidents, rest)
    ensures SerialValid(s.incidents, Commit(s, a) + rest)
    ensures SerialStore(s.incidents, Commit(s, a) + rest) == SerialStore(Next(s, a).incidents, rest)
    ensures SerialReplies(s.incidents, Commit(s, a) + rest) == Decided(s, a) + SerialReplies(Next(s, a).incidents, rest)
  {
    var txs := Commit(s, a);
    StepCommits(s, a);
    if txs == [] {
      assert txs + rest == rest;
      assert Decided(s, a) == [];
    } else {
      assert txs == [txs[0]] && txs[1..] == [];
      SerialCons(s.incidents, txs[0], rest);
    }
  }

  /**
   Any run in which no write falls inside another operation's window on the same check is equivalent to doing
   its operations one at a time: same final collection, same answers.
   */
  lemma {:induction false} Serialisable(s: State, run: seq<Action>)
    requires Valid(s, run) && Disciplined(s, run) && AllUpToDate(s)
    ensures SerialValid(s.incidents, Commits(s, run))
    ensures SerialStore(s.incidents, Commits(s, run)) == Exec(s, run).incidents
    ensures SerialReplies(s.incidents, Commits(s, run)) == Decisions(s, run)
    decreases |run|
  {
    if run != [] {
      var s' := Next(s, run[0]);
      StepUpToDate(s, run[0]);
      Serialisable(s', run[1..]);
      CommitsOne(s, run[0], Commits(s', run[1..]));
    }
  }

  lemma {:induction false} OthersLeaveOp(s: State, run: seq<Action>, op: OpId)
    requires Valid(s, run) && op in s.ops && forall i | 0 <= i < |run| :: run[i].op != op
    ensures op in Exec(s, run).ops && Exec(s, run).ops[op] == s.ops[op]
    decreases |run|
  {
    if run != [] {
      assert run[0].op != op && forall i | 0 <= i < |run[1..]| :: run[1..][i] == run[i + 1];
      OthersLeaveOp(Next(s, run[0]), run[1..], op);
    }
  }

  /**
   What is decided is what the caller is answered: at once, or, after a write, when the operation goes on, whatever
   other operations do in between.
   */
  lemma {:induction false} DecidedIsAnswered(s: State, a: Action, run: seq<Action>, now: Time)
    requires Enabled(s, a) && !a.Resume? && Valid(Next(s, a), run)
    requires forall i | 0 <= i < |run| :: run[i].op != a.op
    ensures ReplyAt(s, a).Some? ==> Decided(s, a) == [ReplyAt(s, a).value]
    ensures ReplyAt(s, a).None? && !a.Write? ==> Decided(s, a) == []
    ensures a.Write? && ReplyAt(s, a).None? && Next(s, a).ops[a.op].Replying? ==>
              && Enabled(Exec(Next(s, a), run), Resume(a.op, now))
              && |Decided(s, a)| == 1
              && ReplyAt(Exec(Next(s, a), run), Resume(a.op, now)) == Some(Decided(s, a)[0])
  {
    if a.Write? && ReplyAt(s, a).None? {
      OthersLeaveOp(Next(s, a), run, a.op);
    }
  }

  // ----- What serial operations keep -----

  ghost predicate RankKept(m: Incidents, m': Incidents) {
    forall id | id in m :: id in m' && m[id].status.Rank() <= m'[id].status.Rank()
  }

  lemma AtomicKeeps(m: Incidents, tx: Tx)
    requires TxEnabled(m, tx)
    ensures RankKept(m, Atomic(m, tx))
    ensures AtMostOneActive(m) ==> AtMostOneActive(Atomic(m, tx))
  {
    var m' := Atomic(m, tx);
    if Writes(m, tx) {
      var o := AfterRead(m, tx.req, tx.answer).op;
      var target := if o.Creating? then tx.newId else o.id;
      assert forall t, c, i :: i != target ==> (ActiveFor(m', t, c, i) <==> ActiveFor(m, t, c, i));
      if o.Patching? {
        assert forall t, c :: ActiveFor(m', t, c, target) ==> ActiveFor(m, t, c, target);
      }
    }
  }

  lemma {:induction false} SerialKeeps(m: Incidents, txs: seq<Tx>)
    requires SerialValid(m, txs)
    ensures RankKept(m, SerialStore(m, txs))
    ensures AtMostOneActive(m) ==> AtMostOneActive(SerialStore(m, txs))
    decreases |txs|
  {
    if txs != [] {
      AtomicKeeps(m, txs[0]);
      SerialKeeps(Atomic(m, txs[0]), txs[1..]);
    }
  }

  /** Without overlapping windows a check never has two active incidents and no status ever goes back. */
  lemma {:induction false} ExclusiveRunIsSafe(s: State, run: seq<Action>)
    requires Valid(s, run) && Disciplined(s, run) && AllUpToDate(s)
    ensures RankKept(s.incidents, Exec(s, run).incidents)
    ensures AtMostOneActive(s.incidents) ==> AtMostOneActive(Exec(s, run).incidents)
  {
    Serialisable(s, run);
    SerialKeeps(s.incidents, Commits(s, run));
  }

  // ----- Operations on different checks commute -----

  /** The check a whole operation is about, with its tenant; none when it names no existing incident. */
  function TxKey(m: Incidents, tx: Tx): Option<(TenantId, CheckId)> {
    match tx.req
    case OpenIncident(t, c) => Some((t, c))
    case ResolveIncident(t, c) => Some((t, c))
    case UpdateIncident(t, id, _, _, _) => if Owned(m, t, id) then Some((t, m[id].check)) else None
    case GetIncident(t, id) => if Owned(m, t, id) then Some((t, m[id].check)) else None
  }

  lemma EnabledElsewhere(m: Incidents, x: Tx, y: Tx)
    requires TxEnabled(m, x) && TxEnabled(m, y) && x.newId != y.newId
    requires TxKey(m, x).Some? && TxKey(m, y).Some? && TxKey(m, x) != TxKey(m, y)
    ensures TxEnabled(Atomic(m, x), y)
    ensures AtomicReply(Atomic(m, x), y) == AtomicReply(m, y)
  {
    var m' := Atomic(m, x);
    if Writes(m, x) {
      var o := AfterRead(m, x.req, x.answer).op;
      var target := if o.Creating? then x.newId else o.id;
      assert forall id | id in m && id != target :: id in m' && m'[id] == m[id];
      assert forall id | id in m' && id != target :: id in m;
    }
  }

  /** Operations on different checks may be done in either order. */
  lemma DifferentChecksCommute(m: Incidents, x: Tx, y: Tx)
    requires TxEnabled(m, x) && TxEnabled(m, y) && x.newId != y.newId
    requires TxKey(m, x).Some? && TxKey(m, y).Some? && TxKey(m, x) != TxKey(m, y)
    ensures TxEnabled(Atomic(m, x), y) && TxEnabled(Atomic(m, y), x)
    ensures Atomic(Atomic(m, x), y) == Atomic(Atomic(m, y), x)
    ensures AtomicReply(Atomic(m, x), y) == AtomicReply(m, y) && AtomicReply(Atomic(m, y), x) == AtomicReply(m, x)
  {
    EnabledElsewhere(m, x, y);
    EnabledElsewhere(m, y, x);
    assert Atomic(Atomic(m, x), y).Keys == Atomic(Atomic(m, y), x).Keys;
  }

  // ----- What a stale write can break, exactly -----

  /** Does the write issued by `o` make an incident active that is not active now? */
  predicate Activates(m: Incidents, o: Op) {
    match o
    case Creating(req) => req.OpenIncident?
    case Patching(req, id, _) =>
      Owned(m, req.tenant, id) && m[id].status.Resolved?
      && req.UpdateIncident? && req.status.Some? && req.status.value.Active()
    case _ => false
  }

  /** Does the write issued by `o` activate an incident beside an active one of the same check? */
  ghost predicate Doubles(m: Incidents, o: Op) {
    Activates(m, o) && exists id :: id in m && ActiveFor(m, KeyOf(m, o).value.0, KeyOf(m, o).value.1, id)
  }

  /** A write, stale or not, leaves at most one active incident per check exactly when it activates none beside another. */
  lemma WriteSafeExactly(m: Incidents, o: Op, newId: IncidentId, now: Time)
    requires AtMostOneActive(m) && newId !in m
    ensures AtMostOneActive(Written(m, o, newId, now)) <==> !Doubles(m, o)
  {
    var m' := Written(m, o, newId, now);
    var target := if o.Creating? then newId else if o.Patching? then o.id else newId;
    assert forall t, c, i :: i != target ==> (ActiveFor(m', t, c, i) <==> ActiveFor(m, t, c, i));
    if Activates(m, o) {
      var key := KeyOf(m, o).value;
      assert ActiveFor(m', key.0, key.1, target) && !ActiveFor(m, key.0, key.1, target);
    } else {
      assert forall t, c :: ActiveFor(m', t, c, target) ==> ActiveFor(m, t, c, target);
    }
  }

  /** At every point of the run a check has at most one active incident. */
  ghost predicate AtMostOneAlong(s: State, run: seq<Action>)
    requires Valid(s, run)
    decreases |run|
  {
    AtMostOneActive(s.incidents) && (run != [] ==> AtMostOneAlong(Next(s, run[0]), run[1..]))
  }

  ghost predicate NeverDoubles(s: State, run: seq<Action>)
    requires Valid(s, run)
    decreases |run|
  {
    run != [] ==> (run[0].Write? ==> !Doubles(s.incidents, s.ops[run[0].op])) && NeverDoubles(Next(s, run[0]), run[1..])
  }

  /**
   Under any interleaving a check has at most one active incident throughout if and only if no write activates one
   beside one that is active at that moment.
   */
  lemma {:induction false} AtMostOneAlongExactly(s: State, run: seq<Action>)
    requires Valid(s, run) && AtMostOneActive(s.incidents)
    ensures AtMostOneAlong(s, run) <==> NeverDoubles(s, run)
    decreases |run|
  {
    if run != [] {
      var a := run[0];
      if a.Write? {
        WriteSafeExactly(s.incidents, s.ops[a.op], a.newId, a.now);
      }
      if AtMostOneActive(Next(s, a).incidents) {
        AtMostOneAlongExactly(Next(s, a), run[1..]);
      }
    }
  }

  /** A manual update that sets a status below the one now stored. */
  predicate Downgrades(m: Incidents, o: Op) {
    o.Patching? && o.req.UpdateIncident? && Owned(m, o.req.tenant, o.id)
    && o.req.status.Some? && o.req.status.value.Rank() < m[o.id].status.Rank()
  }

  /** A write, stale or not, takes a status back if and only if it is a manual update to a lower status. */
  lemma WriteRegressesExactly(m: Incidents, o: Op, newId: IncidentId, now: Time)
    requires InWindow(o) && newId !in m
    ensures !RankKept(m, Written(m, o, newId, now)) <==> Downgrades(m, o)
  {
    var m' := Written(m, o, newId, now);
    if Downgrades(m, o) {
      assert o.id in m && m'[o.id].status == o.req.status.value;
    }
  }

  /** No step of the run takes a status back. */
  ghost predicate RanksNeverFall(s: State, run: seq<Action>)
    requires Valid(s, run)
    decreases |run|
  {
    run != [] ==> RankKept(s.incidents, Next(s, run[0]).incidents) && RanksNeverFall(Next(s, run[0]), run[1..])
  }

  ghost predicate NeverDowngrades(s: State, run: seq<Action>)
    requires Valid(s, run)
    decreases |run|
  {
    run != [] ==>
      (run[0].Write? ==> !Downgrades(s.incidents, s.ops[run[0].op])) && NeverDowngrades(Next(s, run[0]), run[1..])
  }

  /** Under any interleaving statuses never go back if and only if no write downgrades the status stored at that moment. */
  lemma {:induction false} RanksNeverFallExactly(s: State, run: seq<Action>)
    requires Valid(s, run)
    ensures RanksNeverFall(s, run) <==> NeverDowngrades(s, run)
    decreases |run|
  {
    if run != [] {
      var a := run[0];
      if a.Write? {
        WriteRegressesExactly(s.incidents, s.ops[a.op], a.newId, a.now);
      }
      RanksNeverFallExactly(Next(s, a), run[1..]);
    }
  }

  /** A manual update in its window was allowed from the status it read. */
  ghost predicate Lawful(s: State) {
    forall q | q in s.ops && s.ops[q].Patching? && s.ops[q].req.UpdateIncident? && s.ops[q].req.status.Some? ::
      MayMove(s.ops[q].prev, s.ops[q].req.status.value)
  }

  lemma {:induction false} RunLawful(s: State, run: seq<Action>)
    requires Valid(s, run) && Lawful(s)
    ensures Lawful(Exec(s, run))
    decreases |run|
  {
    if run != [] {
      RunLawful(Next(s, run[0]), run[1..]);
    }
  }

  /** In every run of the service, an operation about to downgrade an incident has been overtaken since its read. */
  lemma {:induction false} RegressionNeedsStaleRead(run: seq<Action>, op: OpId)
    requires Valid(EMPTY_STATE, run) && op in Exec(EMPTY_STATE, run).ops
    requires Downgrades(Exec(EMPTY_STATE, run).incidents, Exec(EMPTY_STATE, run).ops[op])
    ensures var s := Exec(EMPTY_STATE, run);
            s.ops[op].prev.Rank() < s.incidents[s.ops[op].id].status.Rank()
  {
    RunLawful(EMPTY_STATE, run);
  }

  // ----- Overlapping windows: two short runs -----

  /** Two failures of one check whose windows overlap leave two open incidents. */
  lemma OverlapDuplicates() returns (run: seq<Action>)
    ensures Valid(EMPTY_STATE, run) && !Disciplined(EMPTY_STATE, run)
    ensures !AtMostOneActive(Exec(EMPTY_STATE, run).incidents)
  {
    run := [];
    run := Take(EMPTY_STATE, run, Call(0, OpenIncident(1, 1)));
    run := Take(EMPTY_STATE, run, Call(1, OpenIncident(1, 1)));
    run := Take(EMPTY_STATE, run, Read(0, None));
    run := Take(EMPTY_STATE, run, Read(1, None));
    run := Take(EMPTY_STATE, run, Write(0, 10, 5));
    run := Take(EMPTY_STATE, run, Write(1, 11, 6));
    var m := Exec(EMPTY_STATE, run).incidents;
    assert ActiveFor(m, 1, 1, 10) && ActiveFor(m, 1, 1, 11);
    if Disciplined(EMPTY_STATE, run) {
      ExclusiveRunIsSafe(EMPTY_STATE, run);
      assert false;
    }
  }

  const ONE_OPEN: State := State(map[10 := NewIncident(1, 1, 0)], [], map[], [])

  /** A manual update that crosses the automatic resolution takes a resolved incident back to monitoring. */
  lemma OverlapRegresses() returns (run: seq<Action>, last: Action)
    ensures Valid(ONE_OPEN, run) && Enabled(Exec(ONE_OPEN, run), last)
    ensures 10 in Exec(ONE_OPEN, run).incidents && Exec(ONE_OPEN, run).incidents[10].status == Resolved
    ensures 10 in Next(Exec(ONE_OPEN, run), last).incidents
    ensures Next(Exec(ONE_OPEN, run), last).incidents[10].status == Monitoring
    ensures Next(Exec(ONE_OPEN, run), last).incidents[10].resolvedAt == Some(5)
  {
    run := [];
    run := Take(ONE_OPEN, run, Call(0, UpdateIncident(1, 10, Some(Monitoring), None, 7)));
    run := Take(ONE_OPEN, run, Call(1, ResolveIncident(1, 1)));
    run := Take(ONE_OPEN, run, Read(0, Some(10)));
    run := Take(ONE_OPEN, run, Read(1, Some(10)));
    run := Take(ONE_OPEN, run, Write(1, 99, 5));
    last := Write(0, 99, 6);
  }

  /** The run with one more step. */
  lemma {:induction false} Take(s: State, run: seq<Action>, a: Action) returns (longer: seq<Action>)
    requires Valid(s, run) && Enabled(Exec(s, run), a)
    ensures Valid(s, longer) && Exec(s, longer) == Next(Exec(s, run), a)
  {
    Extend(s, run, a);
    longer := run + [a];
  }
}

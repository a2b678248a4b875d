/**
 Idempotent ingestion (src/modules/usage/usage.service.ts:54-88 over the unique index of usage.model.ts:66).

 An insert and the lookup after a duplicate-key error are separate database calls, and any number of calls run at
 once. The index is the database's: an insert takes effect exactly when no record has its key.
 */
module Usage {
  import opened Common
  import opened Json

  type RecordId = nat
  type CallId = nat
  type Key = string

  datatype Request = Request(tenant: nat, key: Key, kind: string, payload: Option<Json>)

  datatype Record = Record(key: Key, tenant: nat, kind: string, payload: Option<Json>, ts: int)

  datatype Call =
    | Inserting(req: Request)                             // the insert is out
    | Inserted(req: Request, id: RecordId)                // it took effect; the caller is not yet answered
    | Looking(req: Request)                               // it was refused as a duplicate; the lookup is out
    | Done(req: Request, id: RecordId, event: Record, created: bool)
    | Failed(req: Request)                                // an error was rethrown
    | Lost(req: Request, id: RecordId)                    // it took effect, but its answer was an error: rethrown

  datatype Store = Store(records: map<RecordId, Record>, calls: map<CallId, Call>)

  datatype Step =
    | Begin(call: CallId, req: Request)
    | Insert(call: CallId, newId: RecordId, ts: int)
    | Return(call: CallId)
    | Lookup(call: CallId, answer: Option<RecordId>)
    | Reject(call: CallId)                                // a database error before anything took effect
    | Lose(call: CallId)                                  // an error in place of the answer to an insert

  const EMPTY := Store(map[], map[])

  function RecordFor(req: Request, ts: int): Record {
    Record(req.key, req.tenant, req.kind, req.payload, ts)
  }

  predicate HasKey(m: map<RecordId, Record>, key: Key) {
    exists id :: id in m && m[id].key == key
  }

  /** Every answer `findOne({ idempotencyKey })` may give. */
  ghost predicate LookupAnswer(m: map<RecordId, Record>, key: Key, answer: Option<RecordId>) {
    match answer
    case None => !HasKey(m, key)
    case Some(id) => id in m && m[id].key == key
  }

  ghost predicate CanStep(s: Store, step: Step) {
    match step
    case Begin(c, _) => c !in s.calls
    case Insert(c, newId, _) => c in s.calls && s.calls[c].Inserting? && newId !in s.records
    case Return(c) => c in s.calls && s.calls[c].Inserted? && s.calls[c].id in s.records
    case Lookup(c, answer) => c in s.calls && s.calls[c].Looking? && LookupAnswer(s.records, s.calls[c].req.key, answer)
    case Reject(c) => c in s.calls && (s.calls[c].Inserting? || s.calls[c].Looking?)
    case Lose(c) => c in s.calls && s.calls[c].Inserted?
  }

  function After(s: Store, step: Step): Store
    requires CanStep(s, step)
  {
    match step
    case Begin(c, req) => s.(calls := s.calls[c := Inserting(req)])
    case Insert(c, newId, ts) =>
      var req := s.calls[c].req;
      if HasKey(s.records, req.key) then s.(calls := s.calls[c := Looking(req)])
      else Store(s.records[newId := RecordFor(req, ts)], s.calls[c := Inserted(req, newId)])
    case Return(c) =>
      var call := s.calls[c];
      s.(calls := s.calls[c := Done(call.req, call.id, s.records[call.id], true)])
    case Lookup(c, answer) =>
      var req := s.calls[c].req;
      s.(calls := s.calls[c := if answer.Some? then Done(req, answer.value, s.records[answer.value], false) else Failed(req)])
    case Reject(c) => s.(calls := s.calls[c := Failed(s.calls[c].req)])
    case Lose(c) => s.(calls := s.calls[c := Lost(s.calls[c].req, s.calls[c].id)])
  }

  ghost predicate Possible(s: Store, run: seq<Step>)
    decreases |run|
  {
    run == [] || (CanStep(s, run[0]) && Possible(After(s, run[0]), run[1..]))
  }

  ghost function Outcome(s: Store, run: seq<Step>): Store
    requires Possible(s, run)
    decreases |run|
  {
    if run == [] then s else Outcome(After(s, run[0]), run[1..])
  }

  // ----- What every interleaving keeps -----

  /** The call stored record `id`. */
  predicate Stored(call: Call, id: RecordId) {
    (call.Inserted? || call.Lost? || (call.Done? && call.created)) && call.id == id
  }

  ghost predicate UniqueKeys(m: map<RecordId, Record>) {
    forall i, j | i in m && j in m && m[i].key == m[j].key :: i == j
  }

  ghost predicate EachStored(s: Store) {
    forall id | id in s.records :: exists c :: c in s.calls && Stored(s.calls[c], id)
  }

  /** A record is stored by at most one call, with that call's own data. */
  ghost predicate Credited(s: Store) {
    && (forall c, d, id | c in s.calls && d in s.calls && Stored(s.calls[c], id) && Stored(s.calls[d], id) :: c == d)
    && (forall c, id | c in s.calls && Stored(s.calls[c], id) ::
          id in s.records && s.records[id] == RecordFor(s.calls[c].req, s.records[id].ts))
  }

  /** An answered call was answered with the stored record of its key. */
  ghost predicate Answered(s: Store) {
    && (forall c | c in s.calls && s.calls[c].Done? ::
          s.calls[c].id in s.records && s.records[s.calls[c].id] == s.calls[c].event
          && s.calls[c].event.key == s.calls[c].req.key)
    && (forall c | c in s.calls && s.calls[c].Looking? :: HasKey(s.records, s.calls[c].req.key))
  }

  ghost predicate Consistent(s: Store) {
    UniqueKeys(s.records) && EachStored(s) && Credited(s) && Answered(s)
  }

  /** Stored records never change and never go. */
  ghost predicate Kept(m: map<RecordId, Record>, m': map<RecordId, Record>) {
    forall id | id in m :: id in m' && m'[id] == m[id]
  }

  lemma StepStores(s: Store, step: Step)
    requires CanStep(s, step) && EachStored(s)
    ensures EachStored(After(s, step))
  {
    var s' := After(s, step);
    forall id | id in s'.records
      ensures exists c :: c in s'.calls && Stored(s'.calls[c], id)
    {
      if id in s.records {
        var c :| c in s.calls && Stored(s.calls[c], id);
        assert c in s'.calls && Stored(s'.calls[c], id);
      } else {
        assert Stored(s'.calls[step.call], id);
      }
    }
  }

  /** A step other than a successful insert leaves every record credited to the same call. */
  lemma OtherStepCredits(s: Store, step: Step)
    requires CanStep(s, step) && Credited(s)
    requires step.Insert? ==> HasKey(s.records, s.calls[step.call].req.key)
    ensures Credited(After(s, step))
  {
    var s' := After(s, step);
    forall c, id | c in s'.calls && Stored(s'.calls[c], id)
      ensures c in s.calls && Stored(s.calls[c], id) && s'.calls[c].req == s.calls[c].req
    {
    }
  }

  lemma InsertCredits(s: Store, step: Step)
    requires CanStep(s, step) && Credited(s) && step.Insert? && !HasKey(s.records, s.calls[step.call].req.key)
    ensures Credited(After(s, step))
  {
    var s' := After(s, step);
    forall c, id | c in s'.calls && Stored(s'.calls[c], id)
      ensures if c == step.call then id == step.newId
              else s'.calls[c] == s.calls[c] && id in s.records && s.records[id] == RecordFor(s.calls[c].req, s.records[id].ts)
    {
      if c != step.call {
        assert c in s.calls && Stored(s.calls[c], id);
      }
    }
  }

  lemma StepAnswers(s: Store, step: Step)
    requires CanStep(s, step) && Credited(s) && Answered(s)
    ensures Answered(After(s, step)) && Kept(s.records, After(s, step).records)
  {
    var s' := After(s, step);
    forall c | c in s'.calls && s'.calls[c].Looking?
      ensures HasKey(s'.records, s'.calls[c].req.key)
    {
      var id :| id in s.records && s.records[id].key == s'.calls[c].req.key;
      assert s'.records[id] == s.records[id];
    }
    if step.Return? {
      assert Stored(s.calls[step.call], s.calls[step.call].id);
    }
  }

  lemma StepConsistent(s: Store, step: Step)
    requires CanStep(s, step) && Consistent(s)
    ensures Consistent(After(s, step)) && Kept(s.records, After(s, step).records)
  {
    StepStores(s, step);
    if step.Insert? && !HasKey(s.records, s.calls[step.call].req.key) {
      InsertCredits(s, step);
    } else {
      OtherStepCredits(s, step);
    }
    StepAnswers(s, step);
  }

  lemma {:induction false} RunConsistent(s: Store, run: seq<Step>)
    requires Possible(s, run) && Consistent(s)
    ensures Consistent(Outcome(s, run)) && Kept(s.records, Outcome(s, run).records)
    decreases |run|
  {
    if run != [] {
      StepConsistent(s, run[0]);
      RunConsistent(After(s, run[0]), run[1..]);
    }
  }

  /** Every call in the store made the request it began with, at some step of the run. */
  lemma {:induction false} CallsBegan(s: Store, run: seq<Step>, c: CallId)
    requires Possible(s, run) && c !in s.calls && c in Outcome(s, run).calls
    ensures exists i :: 0 <= i < |run| && run[i] == Begin(c, Outcome(s, run).calls[c].req)
    decreases |run|
  {
    var s' := After(s, run[0]);
    if c in s'.calls {
      RequestsStay(s', run[1..], c);
      assert run[0] == Begin(c, Outcome(s, run).calls[c].req);
    } else {
      CallsBegan(s', run[1..], c);
      var i :| 0 <= i < |run[1..]| && run[1..][i] == Begin(c, Outcome(s, run).calls[c].req);
      assert run[i + 1] == run[1..][i];
    }
  }

  /** A new record was put there by an insert of the call that stored it, at the time of that insert. */
  lemma {:induction false} RecordsWereInserted(s: Store, run: seq<Step>, id: RecordId)
    requires Possible(s, run) && Consistent(s) && id !in s.records && id in Outcome(s, run).records
    ensures exists i, c :: && 0 <= i < |run| && run[i] == Insert(c, id, Outcome(s, run).records[id].ts)
                           && c in Outcome(s, run).calls && Stored(Outcome(s, run).calls[c], id)
    decreases |run|
  {
    var s' := After(s, run[0]);
    StepConsistent(s, run[0]);
    RunConsistent(s', run[1..]);
    if id in s'.records {
      var c := run[0].call;
      assert run[0] == Insert(c, id, s'.records[id].ts);
      StaysStored(s', run[1..], c, id);
      assert Outcome(s, run).records[id] == s'.records[id];
    } else {
      RecordsWereInserted(s', run[1..], id);
      var i, c :| && 0 <= i < |run[1..]| && run[1..][i] == Insert(c, id, Outcome(s, run).records[id].ts)
                  && c in Outcome(s, run).calls && Stored(Outcome(s, run).calls[c], id);
      assert run[i + 1] == run[1..][i];
    }
  }

  lemma {:induction false} StaysStored(s: Store, run: seq<Step>, c: CallId, id: RecordId)
    requires Possible(s, run) && c in s.calls && Stored(s.calls[c], id)
    ensures c in Outcome(s, run).calls && Stored(Outcome(s, run).calls[c], id)
    decreases |run|
  {
    if run != [] {
      StaysStored(After(s, run[0]), run[1..], c, id);
    }
  }

  /** Record `id` was stored by call `c`, at step `j`, with the data the call began with at step `i`; by no other call. */
  ghost predicate StoredAsBegun(s: Store, run: seq<Step>, id: RecordId, c: CallId, i: nat, j: nat)
    requires id in s.records
  {
    && i < |run| && j < |run| && run[i].Begin? && run[i].call == c && run[j] == Insert(c, id, s.records[id].ts)
    && s.records[id].key == run[i].req.key && s.records[id].tenant == run[i].req.tenant
    && s.records[id].kind == run[i].req.kind && s.records[id].payload == run[i].req.payload
    && c in s.calls && s.calls[c].req == run[i].req && Stored(s.calls[c], id)
    && forall d | d in s.calls && Stored(s.calls[d], id) :: d == c
  }

  lemma {:induction false} RecordWasBegun(run: seq<Step>, id: RecordId) returns (c: CallId, i: nat, j: nat)
    requires Possible(EMPTY, run) && id in Outcome(EMPTY, run).records
    ensures StoredAsBegun(Outcome(EMPTY, run), run, id, c, i, j)
  {
    var s := Outcome(EMPTY, run);
    RunConsistent(EMPTY, run);
    RecordsWereInserted(EMPTY, run, id);
    j, c :| j < |run| && run[j] == Insert(c, id, s.records[id].ts) && c in s.calls && Stored(s.calls[c], id);
    CallsBegan(EMPTY, run, c);
    i :| i < |run| && run[i] == Begin(c, s.calls[c].req);
  }

  /**
   Under any interleaving: at most one record per key; a record once stored never changes; each record was stored by
   exactly one call, which may have lost its answer, at one of its inserts, with the tenant, key, kind and payload the
   call began with; and every answered call with that key, `created` or not, got that record.
   */
  lemma {:induction false} IngestionIsIdempotent(run: seq<Step>, later: seq<Step>, id: RecordId)
    requires Possible(EMPTY, run) && Possible(Outcome(EMPTY, run), later)
    requires id in Outcome(EMPTY, run).records
    ensures var s := Outcome(EMPTY, run);
            && UniqueKeys(s.records)
            && Kept(s.records, Outcome(s, later).records)
            && (exists c, i, j :: StoredAsBegun(s, run, id, c, i, j))
            && (forall c | c in s.calls && s.calls[c].Done? && s.calls[c].req.key == s.records[id].key ::
                  s.calls[c].id == id && s.calls[c].event == s.records[id])
  {
    RunConsistent(EMPTY, run);
    RunConsistent(Outcome(EMPTY, run), later);
    var c, i, j := RecordWasBegun(run, id);
  }

  /** The lookup after a duplicate-key error always finds the record, so the error is never rethrown. */
  lemma {:induction false} DuplicatePathFinds(run: seq<Step>, c: CallId, answer: Option<RecordId>)
    requires Possible(EMPTY, run) && CanStep(Outcome(EMPTY, run), Lookup(c, answer))
    ensures answer.Some? && After(Outcome(EMPTY, run), Lookup(c, answer)).calls[c].Done?
  {
    RunConsistent(EMPTY, run);
  }

  /** A call keeps its request to the end. */
  lemma {:induction false} RequestsStay(s: Store, run: seq<Step>, c: CallId)
    requires Possible(s, run) && c in s.calls
    ensures c in Outcome(s, run).calls && Outcome(s, run).calls[c].req == s.calls[c].req
    decreases |run|
  {
    if run != [] {
      RequestsStay(After(s, run[0]), run[1..], c);
    }
  }

  /** Is the key of `req` taken, at this moment, by a record of another tenant? */
  predicate TakenByAnother(m: map<RecordId, Record>, req: Request) {
    exists id :: id in m && m[id].key == req.key && m[id].tenant != req.tenant
  }

  /**
   The index covers all tenants: however the run goes on, a call is answered with another tenant's record if and only
   if a record with its key and another tenant is there when its insert reaches the store.
   */
  lemma {:induction false} AnswerBelongsToFirstTenant(run: seq<Step>, c: CallId, newId: RecordId, ts: int, later: seq<Step>)
    requires Possible(EMPTY, run) && CanStep(Outcome(EMPTY, run), Insert(c, newId, ts))
    requires Possible(After(Outcome(EMPTY, run), Insert(c, newId, ts)), later)
    requires var end := Outcome(After(Outcome(EMPTY, run), Insert(c, newId, ts)), later); c in end.calls && end.calls[c].Done?
    ensures var s := Outcome(EMPTY, run);
            var end := Outcome(After(s, Insert(c, newId, ts)), later);
            end.calls[c].event.tenant != end.calls[c].req.tenant <==> TakenByAnother(s.records, s.calls[c].req)
  {
    RunConsistent(EMPTY, run);
    var s := Outcome(EMPTY, run);
    var req := s.calls[c].req;
    var s1 := After(s, Insert(c, newId, ts));
    StepConsistent(s, Insert(c, newId, ts));
    RunConsistent(s1, later);
    RequestsStay(s1, later, c);
    var end := Outcome(s1, later);
    var first := if id :| id in s.records && s.records[id].key == req.key then id else newId;
    assert first in s1.records && s1.records[first].key == req.key;
    assert end.calls[c].id == first && end.calls[c].event == s1.records[first];
    if HasKey(s.records, req.key) {
      assert forall id | id in s.records && s.records[id].key == req.key :: id == first;
    }
  }

  /** Two tenants use one key: the second is answered with the first one's record. */
  lemma SecondTenantGetsFirstRecord() returns (run: seq<Step>)
    ensures Possible(EMPTY, run)
    ensures var s := Outcome(EMPTY, run);
            && 1 in s.calls && s.calls[1].Done? && !s.calls[1].created
            && s.calls[1].req.tenant == 20 && s.calls[1].event == Record("k", 10, "page_view", None, 0)
  {
    run := Take([], Begin(0, Request(10, "k", "page_view", None)));
    run := Take(run, Insert(0, 5, 0));
    run := Take(run, Begin(1, Request(20, "k", "api_call", None)));
    assert HasKey(Outcome(EMPTY, run).records, "k") by { assert Outcome(EMPTY, run).records[5].key == "k"; }
    run := Take(run, Insert(1, 6, 1));
    run := Take(run, Lookup(1, Some(5)));
  }

  /** The run with one more step. */
  lemma {:induction false} Take(run: seq<Step>, step: Step) returns (longer: seq<Step>)
    requires Possible(EMPTY, run) && CanStep(Outcome(EMPTY, run), step)
    ensures longer == run + [step] && Possible(EMPTY, longer)
    ensures Outcome(EMPTY, longer) == After(Outcome(EMPTY, run), step)
  {
    Extend(EMPTY, run, step);
    longer := run + [step];
  }

  lemma {:induction false} Extend(s: Store, run: seq<Step>, step: Step)
    requires Possible(s, run) && CanStep(Outcome(s, run), step)
    ensures Possible(s, run + [step]) && Outcome(s, run + [step]) == After(Outcome(s, run), step)
    decreases |run|
  {
    if run == [] {
      assert [step][1..] == [];
    } else {
      assert (run + [step])[1..] == run[1..] + [step];
      Extend(After(s, run[0]), run[1..], step);
    }
  }

  // ----- In place -----

  class UsageService {
    var records: map<RecordId, Record>
    var calls: map<CallId, Call>

    function Snapshot(): Store
      reads this
    {
      Store(records, calls)
    }

    constructor ()
      ensures Snapshot() == EMPTY
    {
      records, calls := map[], map[];
    }

    method Ingest(c: CallId, req: Request)
      requires c !in calls
      modifies this
      ensures Snapshot() == After(old(Snapshot()), Begin(c, req))
    {
      calls := calls[c := Inserting(req)];
    }

    /** The insert reaches the database: it is stored, or refused by the unique index. */
    method InsertTakesEffect(c: CallId, newId: RecordId, ts: int)
      requires c in calls && calls[c].Inserting? && newId !in records
      modifies this
      ensures Snapshot() == After(old(Snapshot()), Insert(c, newId, ts))
    {
      var req := calls[c].req;
      if id :| id in records && records[id].key == req.key {
        assert HasKey(records, req.key);
        calls := calls[c := Looking(req)];
      } else {
        records := records[newId := Record(req.key, req.tenant, req.kind, req.payload, ts)];
        calls := calls[c := Inserted(req, newId)];
      }
    }

    method AnswerCreated(c: CallId) returns (event: Record, created: bool)
      requires c in calls && calls[c].Inserted? && calls[c].id in records
      modifies this
      ensures Snapshot() == After(old(Snapshot()), Return(c))
      ensures calls[c] == Done(old(calls)[c].req, old(calls)[c].id, event, created)
    {
      var call := calls[c];
      event, created := records[call.id], true;
      calls := calls[c := Done(call.req, call.id, event, created)];
    }

    /** The insert took effect, but its answer is an error other than a duplicate key: it is rethrown. */
    method InsertAnswerLost(c: CallId)
      requires c in calls && calls[c].Inserted?
      modifies this
      ensures Snapshot() == After(old(Snapshot()), Lose(c))
    {
      calls := calls[c := Lost(calls[c].req, calls[c].id)];
    }

    /** The catch path: fetch the original, or rethrow. */
    method LookupAnswered(c: CallId) returns (answer: Option<RecordId>)
      requires c in calls && calls[c].Looking?
      modifies this
      ensures CanStep(old(Snapshot()), Lookup(c, answer))
      ensures Snapshot() == After(old(Snapshot()), Lookup(c, answer))
    {
      var req := calls[c].req;
      if id :| id in records && records[id].key == req.key {
        answer := Some(id);
        calls := calls[c := Done(req, id, records[id], false)];
      } else {
        answer := None;
        calls := calls[c := Failed(req)];
      }
    }
  }
}

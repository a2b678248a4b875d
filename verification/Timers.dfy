/**
 The scheduler's timers as a step machine
 (src/scheduler.ts:139-232, with the signal of src/modules/check/check.service.ts:62-133).

 An interval runs until `clearInterval` is called on its handle; only the `timers` map remembers handles. A reload
 awaits the database, and each check waits a jitter timeout before its interval starts. Every timeout and interval
 closes over its own document, the `Copy` its load returned. A check request writes to the database in one turn and
 publishes its signal in a later one.
 */
module Timers {
  import opened Common
  import opened IncidentModel
  import opened CheckModel

  type HandleId = nat
  type TimeoutId = nat

  /** The `timers` map, the running intervals, and the jitter timeouts not yet fired. */
  datatype Alarms = Alarms(timers: map<CheckId, HandleId>, live: map<HandleId, Copy>, pending: map<TimeoutId, Copy>)

  /**
   The reloads waiting for the database or for their turn after it, and what it answered; all reloads ever begun; the
   one answered last; whether the last one to end was rejected.
   */
  datatype Loads = Loads(
    waiting: map<LoadId, Option<set<CheckId>>>, begun: set<LoadId>, answered: Option<LoadId>, rejected: bool)

  /** `signals` counts the check requests that have written and not yet published. */
  datatype Clock = Clock(checks: Checks, subscribed: bool, signals: nat, loads: Loads, alarms: Alarms)

  datatype Tick =
    | Start(load: LoadId)
    | Crud(req: CheckRequest, newId: CheckId)
    | Signal(load: LoadId)
    | ReadDb(load: LoadId)
    | Schedule(load: LoadId, jitter: map<TimeoutId, CheckId>)
    | LoadFails(load: LoadId)
    | Fire(timeout: TimeoutId, handle: HandleId)
    | Stop

  const NO_ALARMS := Alarms(map[], map[], map[])
  const IDLE := Clock(map[], false, 0, Loads(map[], {}, None, false), NO_ALARMS)

  function EnabledChecks(checks: Checks): set<CheckId> {
    set c | c in checks && checks[c].enabled
  }

  // ----- Alarms -----

  function Handles(timers: map<CheckId, HandleId>): set<HandleId> {
    set c | c in timers :: timers[c]
  }

  /** `clearInterval` on every tracked handle, then `timers.clear()`. */
  function Cleared(al: Alarms): Alarms {
    al.(live := al.live - Handles(al.timers), timers := map[])
  }

  /** `scheduleCheck`: drop a tracked interval, then wait for the jitter. */
  function Scheduled(al: Alarms, copy: Copy, timeout: TimeoutId): Alarms {
    Alarms(al.timers - {copy.check},
           if copy.check in al.timers then al.live - {al.timers[copy.check]} else al.live,
           al.pending[timeout := copy])
  }

  /** The jitter callback: start the interval and remember its handle. */
  function Fired(al: Alarms, timeout: TimeoutId, handle: HandleId): Alarms
    requires timeout in al.pending
  {
    var copy := al.pending[timeout];
    Alarms(al.timers[copy.check := handle], al.live[handle := copy], al.pending - {timeout})
  }

  /** The checks a set of timeouts is for. */
  function ChecksOf(jitter: map<TimeoutId, CheckId>): set<CheckId> {
    set i | i in jitter :: jitter[i]
  }

  function Copies(load: LoadId, jitter: map<TimeoutId, CheckId>): map<TimeoutId, Copy> {
    map i | i in jitter :: Copy(load, jitter[i])
  }

  /** Fresh timeouts, one for each check of `cs`. */
  ghost predicate FreshTimeouts(pending: map<TimeoutId, Copy>, cs: set<CheckId>, jitter: map<TimeoutId, CheckId>) {
    && ChecksOf(jitter) == cs
    && jitter.Keys !! pending.Keys
    && (forall i, j | i in jitter && j in jitter && jitter[i] == jitter[j] :: i == j)
  }

  /** The tracked handles of some checks. */
  function HandlesOf(timers: map<CheckId, HandleId>, cs: set<CheckId>): set<HandleId> {
    set c | c in timers && c in cs :: timers[c]
  }

  /** `scheduleCheck` on every check of a load. */
  function AllScheduled(al: Alarms, load: LoadId, jitter: map<TimeoutId, CheckId>): Alarms {
    Alarms(al.timers - ChecksOf(jitter),
           al.live - HandlesOf(al.timers, ChecksOf(jitter)),
           al.pending + Copies(load, jitter))
  }

  lemma ChecksOfOneMore(done: map<TimeoutId, CheckId>, c: CheckId, timeout: TimeoutId)
    requires timeout !in done
    ensures ChecksOf(done[timeout := c]) == ChecksOf(done) + {c}
  {
    var more := done[timeout := c];
    assert forall i | i in done :: i in more && more[i] == done[i];
    assert more[timeout] == c;
  }

  lemma HandlesOfOneMore(timers: map<CheckId, HandleId>, cs: set<CheckId>, c: CheckId)
    ensures HandlesOf(timers, cs + {c}) == HandlesOf(timers, cs) + if c in timers then {timers[c]} else {}
  {
  }

  lemma LessOneMore<K, V>(m: map<K, V>, ks: set<K>, more: set<K>)
    ensures m - (ks + more) == (m - ks) - more
  {
  }

  lemma MergedOneMore<K, V>(m: map<K, V>, n: map<K, V>, k: K, v: V)
    ensures m + n[k := v] == (m + n)[k := v]
  {
  }

  /** Scheduling one more check. */
  lemma OneMoreScheduled(al: Alarms, load: LoadId, done: map<TimeoutId, CheckId>, c: CheckId, timeout: TimeoutId)
    requires c !in ChecksOf(done) && timeout !in done
    ensures AllScheduled(al, load, done[timeout := c]) == Scheduled(AllScheduled(al, load, done), Copy(load, c), timeout)
  {
    ChecksOfOneMore(done, c, timeout);
    HandlesOfOneMore(al.timers, ChecksOf(done), c);
    LessOneMore(al.timers, ChecksOf(done), {c});
    assert Copies(load, done[timeout := c]) == Copies(load, done)[timeout := Copy(load, c)];
    MergedOneMore(al.pending, Copies(load, done), timeout, Copy(load, c));
    var handles := HandlesOf(al.timers, ChecksOf(done));
    if c in al.timers {
      LessOneMore(al.live, handles, {al.timers[c]});
    } else {
      assert handles + {} == handles;
    }
  }

  // ----- Steps -----

  /** `reloadChecks` up to its await. */
  function Reloading(s: Clock, load: LoadId): Clock {
    s.(alarms := Cleared(s.alarms),
       loads := s.loads.(waiting := s.loads.waiting[load := None], begun := s.loads.begun + {load}, rejected := false))
  }

  ghost predicate CanTick(s: Clock, k: Tick) {
    match k
    case Start(load) => !s.subscribed && load !in s.loads.begun
    case Crud(_, newId) => newId !in s.checks
    case Signal(load) => s.signals > 0 && load !in s.loads.begun
    case ReadDb(load) => load in s.loads.waiting && s.loads.waiting[load].None?
    case Schedule(load, jitter) =>
      load in s.loads.waiting && s.loads.waiting[load].Some?
      && FreshTimeouts(s.alarms.pending, s.loads.waiting[load].value, jitter)
    case LoadFails(load) => load in s.loads.waiting && s.loads.waiting[load].None?
    case Fire(timeout, handle) => timeout in s.alarms.pending && handle !in s.alarms.live
    case Stop => true
  }

  function After(s: Clock, k: Tick): Clock
    requires CanTick(s, k)
  {
    match k
    case Start(load) => Reloading(s.(subscribed := true), load)
    case Crud(req, newId) =>
      s.(checks := ChecksAfter(s.checks, req, newId), signals := if Signals(s.checks, req) then s.signals + 1 else s.signals)
    case Signal(load) =>
      var s' := s.(signals := s.signals - 1);
      if s.subscribed then Reloading(s', load) else s'
    case ReadDb(load) =>
      s.(loads := s.loads.(waiting := s.loads.waiting[load := Some(EnabledChecks(s.checks))], answered := Some(load)))
    case Schedule(load, jitter) =>
      s.(alarms := AllScheduled(s.alarms, load, jitter), loads := s.loads.(waiting := s.loads.waiting - {load}))
    case LoadFails(load) => s.(loads := s.loads.(waiting := s.loads.waiting - {load}, rejected := true))
    case Fire(timeout, handle) => s.(alarms := Fired(s.alarms, timeout, handle))
    case Stop => s.(alarms := Cleared(s.alarms), subscribed := false)
  }

  ghost predicate Possible(s: Clock, run: seq<Tick>)
    decreases |run|
  {
    run == [] || (CanTick(s, run[0]) && Possible(After(s, run[0]), run[1..]))
  }

  ghost function Outcome(s: Clock, run: seq<Tick>): Clock
    requires Possible(s, run)
    decreases |run|
  {
    if run == [] then s else Outcome(After(s, run[0]), run[1..])
  }

  // ----- Every interval is accounted for -----

  /** The running intervals of check `c`. */
  function LiveFor(live: map<HandleId, Copy>, c: CheckId): set<HandleId> {
    set h | h in live && live[h].check == c
  }

  /** Tracked handles run, each for its own check. */
  ghost predicate Tracking(al: Alarms) {
    forall c | c in al.timers :: al.timers[c] in al.live && al.live[al.timers[c]].check == c
  }

  /** Is this the firing of a jitter timeout for a check that is tracked already? */
  predicate Overwrites(s: Clock, k: Tick, c: CheckId) {
    k.Fire? && k.timeout in s.alarms.pending && s.alarms.pending[k.timeout].check == c && c in s.alarms.timers
  }

  ghost function OverwriteCount(s: Clock, run: seq<Tick>, c: CheckId): nat
    requires Possible(s, run)
    decreases |run|
  {
    if run == [] then 0
    else (if Overwrites(s, run[0], c) then 1 else 0) + OverwriteCount(After(s, run[0]), run[1..], c)
  }

  function Tracked(al: Alarms, c: CheckId): nat { if c in al.timers then 1 else 0 }

  lemma ClearedAccounts(al: Alarms, c: CheckId)
    requires Tracking(al)
    ensures |LiveFor(Cleared(al).live, c)| + Tracked(al, c) == |LiveFor(al.live, c)|
  {
    var before, after := LiveFor(al.live, c), LiveFor(Cleared(al).live, c);
    forall h
      ensures h in after <==> h in before && !(c in al.timers && al.timers[c] == h)
    {
    }
    assert before == after + if c in al.timers then {al.timers[c]} else {};
  }

  lemma ScheduledTracks(al: Alarms, load: LoadId, jitter: map<TimeoutId, CheckId>)
    requires Tracking(al)
    ensures Tracking(AllScheduled(al, load, jitter))
  {
    var al' := AllScheduled(al, load, jitter);
    forall c | c in al'.timers
      ensures al'.timers[c] in al'.live && al'.live[al'.timers[c]].check == c
    {
      assert c in al.timers && al.live[al.timers[c]].check == c;
      assert al.timers[c] !in HandlesOf(al.timers, ChecksOf(jitter));
    }
  }

  lemma ScheduledAccounts(al: Alarms, load: LoadId, jitter: map<TimeoutId, CheckId>, c: CheckId)
    requires Tracking(al)
    ensures |LiveFor(AllScheduled(al, load, jitter).live, c)| + Tracked(al, c) ==
            |LiveFor(al.live, c)| + Tracked(AllScheduled(al, load, jitter), c)
  {
    var al' := AllScheduled(al, load, jitter);
    var before, after := LiveFor(al.live, c), LiveFor(al'.live, c);
    var dropped := c in al.timers && c in ChecksOf(jitter);
    forall h
      ensures h in after <==> h in before && h !in HandlesOf(al.timers, ChecksOf(jitter))
      ensures h in before && h in HandlesOf(al.timers, ChecksOf(jitter)) <==> dropped && h == al.timers[c]
    {
    }
    assert before == after + if dropped then {al.timers[c]} else {};
  }

  lemma OneMoreRunning(live: map<HandleId, Copy>, h: HandleId, copy: Copy, c: CheckId)
    requires h !in live
    ensures |LiveFor(live[h := copy], c)| == |LiveFor(live, c)| + if copy.check == c then 1 else 0
  {
    assert LiveFor(live[h := copy], c) == LiveFor(live, c) + if copy.check == c then {h} else {};
  }

  lemma TickAccounts(s: Clock, k: Tick, c: CheckId)
    requires CanTick(s, k) && Tracking(s.alarms)
    ensures Tracking(After(s, k).alarms)
    ensures |LiveFor(After(s, k).alarms.live, c)| + Tracked(s.alarms, c) ==
            |LiveFor(s.alarms.live, c)| + Tracked(After(s, k).alarms, c) + if Overwrites(s, k, c) then 1 else 0
  {
    match k
    case Start(_) => ClearedAccounts(s.alarms, c);
    case Signal(_) => ClearedAccounts(s.alarms, c);
    case Stop => ClearedAccounts(s.alarms, c);
    case Schedule(load, jitter) =>
      ScheduledTracks(s.alarms, load, jitter);
      ScheduledAccounts(s.alarms, load, jitter, c);
    case Fire(timeout, handle) => OneMoreRunning(s.alarms.live, handle, s.alarms.pending[timeout], c);
    case _ =>
  }

  lemma {:induction false} RunAccounts(s: Clock, run: seq<Tick>, c: CheckId)
    requires Possible(s, run) && Tracking(s.alarms)
    ensures Tracking(Outcome(s, run).alarms)
    ensures |LiveFor(Outcome(s, run).alarms.live, c)| + Tracked(s.alarms, c) ==
            |LiveFor(s.alarms.live, c)| + Tracked(Outcome(s, run).alarms, c) + OverwriteCount(s, run, c)
    decreases |run|
  {
    if run != [] {
      TickAccounts(s, run[0], c);
      RunAccounts(After(s, run[0]), run[1..], c);
    }
  }

  /** After any run at all: the running intervals of a check are the tracked one, if any, and those overwritten. */
  lemma {:induction false} IntervalsAccountedFor(run: seq<Tick>, c: CheckId)
    requires Possible(IDLE, run)
    ensures var al := Outcome(IDLE, run).alarms;
            |LiveFor(al.live, c)| == Tracked(al, c) + OverwriteCount(IDLE, run, c)
  {
    RunAccounts(IDLE, run, c);
  }

  // ----- Runs in which reloads do not overlap -----

  /** No reload is waiting, neither for the database nor for its jitter timeouts. */
  predicate Settled(s: Clock) {
    s.loads.waiting == map[] && s.alarms.pending == map[]
  }

  /** Reloads and stops begin only when the last reload has settled. */
  ghost predicate Calm(s: Clock, k: Tick) {
    match k
    case Start(_) => Settled(s)
    case Signal(_) => s.subscribed ==> Settled(s)
    case Stop => Settled(s)
    case _ => true
  }

  ghost predicate CalmRun(s: Clock, run: seq<Tick>)
    requires Possible(s, run)
    decreases |run|
  {
    run != [] ==> Calm(s, run[0]) && CalmRun(After(s, run[0]), run[1..])
  }

  /** The checks waiting for their jitter. */
  function Waiting(pending: map<TimeoutId, Copy>): set<CheckId> {
    set i | i in pending :: pending[i].check
  }

  /** At most one interval or timeout for each check, every interval tracked. */
  ghost predicate OneEach(al: Alarms) {
    && Tracking(al)
    && (forall h | h in al.live :: al.live[h].check in al.timers && al.timers[al.live[h].check] == h)
    && (forall i, j | i in al.pending && j in al.pending && al.pending[i].check == al.pending[j].check :: i == j)
    && Waiting(al.pending) !! al.timers.Keys
  }

  /** Every timeout and interval closes over a copy of load `load`. */
  ghost predicate AllFrom(al: Alarms, load: Option<LoadId>) {
    && (forall h | h in al.live :: Some(al.live[h].load) == load)
    && (forall i | i in al.pending :: Some(al.pending[i].load) == load)
  }

  ghost predicate Orderly(s: Clock) {
    && OneEach(s.alarms)
    && AllFrom(s.alarms, s.loads.answered)
    // one reload at a time, with nothing scheduled until its turn after the database
    && (forall i, j | i in s.loads.waiting && j in s.loads.waiting :: i == j)
    && (forall i | i in s.loads.waiting && s.loads.waiting[i].Some? :: s.loads.answered == Some(i))
    && (s.loads.waiting != map[] ==> s.alarms == NO_ALARMS && s.subscribed && !s.loads.rejected)
    && (!s.subscribed ==> s.alarms == NO_ALARMS)
  }

  /**
   Once every signal has been heard, a reload carries the enabled checks, and a finished one has left exactly them
   tracked or waiting, unless it was rejected.
   */
  ghost predicate Synced(s: Clock) {
    s.subscribed && s.signals == 0 ==>
      && (forall i | i in s.loads.waiting && s.loads.waiting[i].Some? :: s.loads.waiting[i].value == EnabledChecks(s.checks))
      && (s.loads.waiting == map[] ==>
            s.alarms.timers.Keys + Waiting(s.alarms.pending) == if s.loads.rejected then {} else EnabledChecks(s.checks))
  }

  /** A request that does not signal changes no document. */
  lemma SilentRequestChangesNothing(m: Checks, req: CheckRequest, newId: CheckId)
    requires !Signals(m, req)
    ensures ChecksAfter(m, req, newId) == m
  {
  }

  /** Clearing stops every interval when each is tracked. */
  lemma ClearedStopsAll(al: Alarms)
    requires OneEach(al) && al.pending == map[]
    ensures Cleared(al) == NO_ALARMS
  {
    assert forall h | h in al.live :: h in Handles(al.timers);
    assert Cleared(al).live == map[];
  }

  /** A load scheduled on a clean slate. */
  lemma ScheduledFromNothing(load: LoadId, jitter: map<TimeoutId, CheckId>)
    requires forall i, j | i in jitter && j in jitter && jitter[i] == jitter[j] :: i == j
    ensures var al := AllScheduled(NO_ALARMS, load, jitter);
            OneEach(al) && AllFrom(al, Some(load)) && al.timers == map[] && Waiting(al.pending) == ChecksOf(jitter)
  {
    var al := AllScheduled(NO_ALARMS, load, jitter);
    assert al.pending == Copies(load, jitter) && al.live == map[] && al.timers == map[];
    forall c
      ensures c in Waiting(al.pending) <==> c in ChecksOf(jitter)
    {
      if c in ChecksOf(jitter) {
        var i :| i in jitter && jitter[i] == c;
        assert i in al.pending && al.pending[i].check == c;
      }
    }
  }

  /** A timeout fires for a check that is not tracked. */
  lemma FiredOnce(al: Alarms, timeout: TimeoutId, handle: HandleId)
    requires OneEach(al) && timeout in al.pending && handle !in al.live
    ensures al.pending[timeout].check !in al.timers
    ensures var al' := Fired(al, timeout, handle);
            && OneEach(al')
            && al'.timers.Keys + Waiting(al'.pending) == al.timers.Keys + Waiting(al.pending)
  {
    var al' := Fired(al, timeout, handle);
    var c := al.pending[timeout].check;
    assert c in Waiting(al.pending);
    forall d
      ensures d in Waiting(al'.pending) <==> d in Waiting(al.pending) && d != c
    {
      if d in Waiting(al.pending) && d != c {
        var i :| i in al.pending && al.pending[i].check == d;
        assert i in al'.pending && al'.pending[i].check == d;
      }
    }
    forall d
      ensures d in al'.timers.Keys + Waiting(al'.pending) <==> d in al.timers.Keys + Waiting(al.pending)
    {
    }
  }

  lemma ReloadingOrderly(s: Clock, load: LoadId)
    requires Orderly(s) && Settled(s) && s.subscribed
    ensures Orderly(Reloading(s, load)) && Synced(Reloading(s, load))
  {
    ClearedStopsAll(s.alarms);
    assert load in Reloading(s, load).loads.waiting;
  }

  lemma TickOrderly(s: Clock, k: Tick)
    requires CanTick(s, k) && Calm(s, k) && Orderly(s)
    ensures Orderly(After(s, k))
    ensures forall c :: !Overwrites(s, k, c)
  {
    match k
    case Start(load) => ReloadingOrderly(s.(subscribed := true), load);
    case Signal(load) => if s.subscribed { ReloadingOrderly(s.(signals := s.signals - 1), load); }
    case Stop => ClearedStopsAll(s.alarms);
    case Schedule(load, jitter) =>
      ScheduledFromNothing(load, jitter);
      assert s.loads.waiting - {load} == map[];
    case Fire(timeout, handle) => FiredOnce(s.alarms, timeout, handle);
    case _ =>
  }

  lemma TickSynced(s: Clock, k: Tick)
    requires CanTick(s, k) && Calm(s, k) && Orderly(s) && Synced(s)
    ensures Synced(After(s, k))
  {
    match k
    case Start(load) => ReloadingOrderly(s.(subscribed := true), load);
    case Signal(load) => if s.subscribed { ReloadingOrderly(s.(signals := s.signals - 1), load); }
    case Crud(req, newId) => if !Signals(s.checks, req) { SilentRequestChangesNothing(s.checks, req, newId); }
    case Schedule(load, jitter) =>
      ScheduledFromNothing(load, jitter);
      assert load in s.loads.waiting;
    case Fire(timeout, handle) => FiredOnce(s.alarms, timeout, handle);
    case _ =>
  }

  lemma {:induction false} RunOrderly(s: Clock, run: seq<Tick>, c: CheckId)
    requires Possible(s, run) && CalmRun(s, run) && Orderly(s) && Synced(s)
    ensures Orderly(Outcome(s, run)) && Synced(Outcome(s, run)) && OverwriteCount(s, run, c) == 0
    decreases |run|
  {
    if run != [] {
      TickOrderly(s, run[0]);
      TickSynced(s, run[0]);
      RunOrderly(After(s, run[0]), run[1..], c);
    }
  }

  /**
   In calm runs no interval is ever overwritten, and every interval and timeout closes over a copy of the load answered
   last. A subscribed, settled scheduler with no signal outstanding tracks exactly the enabled checks, one interval
   each, or nothing if its last load was rejected. After a stop nothing runs, waits or loads until the next start.
   */
  lemma {:induction false} CalmRunsTrackExactlyTheEnabledChecks(run: seq<Tick>, c: CheckId)
    requires Possible(IDLE, run) && CalmRun(IDLE, run)
    ensures var s := Outcome(IDLE, run);
            && OverwriteCount(IDLE, run, c) == 0
            && AllFrom(s.alarms, s.loads.answered)
            && (s.subscribed && Settled(s) && s.signals == 0 ==>
                  var expected := !s.loads.rejected && c in s.checks && s.checks[c].enabled;
                  && (c in s.alarms.timers <==> expected)
                  && |LiveFor(s.alarms.live, c)| == if expected then 1 else 0)
            && (!s.subscribed ==> s.alarms == NO_ALARMS && Settled(s))
  {
    assert EnabledChecks(IDLE.checks) == {};
    RunOrderly(IDLE, run, c);
    IntervalsAccountedFor(run, c);
    var s := Outcome(IDLE, run);
    if Settled(s) {
      assert Waiting(s.alarms.pending) == {};
    }
  }

  // ----- Stopping -----

  /** Nothing that `stopScheduler` leaves behind can start an interval or go on running. */
  predicate NothingLeft(s: Clock) {
    && s.alarms.pending == map[]
    && (forall l | l in s.loads.waiting :: s.loads.waiting[l] == Some({}))
    && s.alarms.live.Keys <= Handles(s.alarms.timers)
  }

  ghost predicate NeverStarts(run: seq<Tick>) {
    forall i | 0 <= i < |run| :: !run[i].Start?
  }

  /** However things go on, short of a new start, no interval runs. */
  ghost predicate StaysSilent(s: Clock) {
    forall run | Possible(s, run) && NeverStarts(run) :: Outcome(s, run).alarms.live == map[]
  }

  lemma {:induction false} SilentRun(s: Clock, run: seq<Tick>)
    requires Possible(s, run) && NeverStarts(run) && NothingLeft(s) && s.alarms.live == map[] && !s.subscribed
    ensures Outcome(s, run).alarms.live == map[]
    decreases |run|
  {
    if run != [] {
      var k := run[0];
      assert !k.Start?;
      if k.Schedule? {
        assert k.jitter == map[] by {
          assert forall i | i in k.jitter :: k.jitter[i] in ChecksOf(k.jitter);
        }
        assert Copies(k.load, k.jitter) == map[];
      }
      assert forall i | 0 <= i < |run[1..]| :: run[1..][i] == run[i + 1];
      SilentRun(After(s, k), run[1..]);
    }
  }

  lemma {:induction false} FreshId(used: set<nat>) returns (n: nat)
    ensures n !in used && forall i | i in used :: i < n
    decreases used
  {
    if used == {} {
      n := 0;
    } else {
      var i :| i in used;
      var m := FreshId(used - {i});
      n := if m <= i then i + 1 else m;
      assert forall j | j in used :: j == i || j in used - {i};
    }
  }

  /** Timeouts for the checks of a load always exist. */
  lemma {:induction false} FreshJitter(pending: map<TimeoutId, Copy>, cs: set<CheckId>)
    returns (jitter: map<TimeoutId, CheckId>)
    ensures FreshTimeouts(pending, cs, jitter)
    decreases cs
  {
    if cs == {} {
      jitter := map[];
    } else {
      var c :| c in cs;
      var rest := FreshJitter(pending, cs - {c});
      var i := FreshId(pending.Keys + rest.Keys);
      ChecksOfOneMore(rest, c, i);
      jitter := rest[i := c];
      assert forall j | j in rest :: rest[j] in ChecksOf(rest);
    }
  }

  /** A timeout that is left can fire. */
  lemma PendingFires(s: Clock, timeout: TimeoutId) returns (run: seq<Tick>)
    requires timeout in s.alarms.pending
    ensures Possible(s, run) && NeverStarts(run) && Outcome(s, run).alarms.live != map[]
  {
    var handle := FreshId(s.alarms.live.Keys);
    run := [Fire(timeout, handle)];
    assert run[1..] == [];
    assert handle in Fired(s.alarms, timeout, handle).live;
  }

  lemma AnsweredLoadFires(s: Clock, load: LoadId) returns (run: seq<Tick>)
    requires load in s.loads.waiting && s.loads.waiting[load].Some? && s.loads.waiting[load].value != {}
    ensures Possible(s, run) && NeverStarts(run) && Outcome(s, run).alarms.live != map[]
  {
    var cs := s.loads.waiting[load].value;
    var jitter := FreshJitter(s.alarms.pending, cs);
    var c :| c in cs;
    var i :| i in jitter && jitter[i] == c;
    assert i in Copies(load, jitter);
    var k := Schedule(load, jitter);
    var rest := PendingFires(After(s, k), i);
    run := [k] + rest;
    assert run[1..] == rest;
  }

  /** A load that is still waiting for the database can be answered with a check created meanwhile. */
  lemma WaitingLoadFires(s: Clock, load: LoadId) returns (run: seq<Tick>)
    requires load in s.loads.waiting && s.loads.waiting[load].None?
    ensures Possible(s, run) && NeverStarts(run) && Outcome(s, run).alarms.live != map[]
  {
    var newId := FreshId(s.checks.Keys);
    var create := Crud(CreateCheck(0, CheckDto("", "", 200, 1000, true)), newId);
    var s1 := After(s, create);
    var s2 := After(s1, ReadDb(load));
    assert newId in EnabledChecks(s1.checks);
    var rest := AnsweredLoadFires(s2, load);
    run := [create, ReadDb(load)] + rest;
    assert run[1..] == [ReadDb(load)] + rest && run[1..][1..] == rest;
  }

  /**
   A stop leaves the process silent if and only if no jitter timeout is outstanding, every reload under way has been
   answered with no checks, and every running interval is tracked.
   */
  lemma StopIsCleanExactly(s: Clock)
    ensures StaysSilent(After(s, Stop)) <==> NothingLeft(s)
  {
    var s' := After(s, Stop);
    if NothingLeft(s) {
      assert s'.alarms.live == map[];
      forall run | Possible(s', run) && NeverStarts(run)
        ensures Outcome(s', run).alarms.live == map[]
      {
        SilentRun(s', run);
      }
    } else {
      var run: seq<Tick> := [];
      if t :| t in s.alarms.pending {
        run := PendingFires(s', t);
      } else if l :| l in s.loads.waiting && s.loads.waiting[l] != Some({}) {
        if s.loads.waiting[l].Some? {
          run := AnsweredLoadFires(s', l);
        } else {
          run := WaitingLoadFires(s', l);
        }
      } else {
        assert s.alarms.pending == map[];
        var h :| h in s.alarms.live && h !in Handles(s.alarms.timers);
        assert h in s'.alarms.live;
      }
      assert Possible(s', run) && NeverStarts(run) && Outcome(s', run).alarms.live != map[];
    }
  }

  // ----- Overlapping reloads -----

  lemma {:induction false} Take(s: Clock, run: seq<Tick>, k: Tick) returns (longer: seq<Tick>)
    requires Possible(s, run) && CanTick(Outcome(s, run), k)
    ensures longer == run + [k] && Possible(s, longer) && Outcome(s, longer) == After(Outcome(s, run), k)
    decreases |run|
  {
    longer := run + [k];
    if run == [] {
      assert longer[1..] == [];
    } else {
      assert longer[1..] == run[1..] + [k];
      var _ := Take(After(s, run[0]), run[1..], k);
    }
  }

  const API := CheckDto("api", "http://api", 200, 1000, true)
  const JITTER: map<TimeoutId, CheckId> := map[7 := 5]

  /** A stop while a jitter timeout is outstanding: the interval starts afterwards and nothing stops it. */
  lemma StopDuringJitterLeavesAnInterval() returns (run: seq<Tick>)
    ensures Possible(IDLE, run)
    ensures var s := Outcome(IDLE, run); !s.subscribed && Settled(s) && s.alarms.live == map[9 := Copy(0, 5)]
  {
    run := [];
    run := Take(IDLE, run, Crud(CreateCheck(1, API), 5));
    run := Take(IDLE, run, Start(0));
    run := Take(IDLE, run, ReadDb(0));
    assert EnabledChecks(Outcome(IDLE, run).checks) == {5};
    assert JITTER[7] == 5 && ChecksOf(JITTER) == {5};
    run := Take(IDLE, run, Schedule(0, JITTER));
    run := Take(IDLE, run, Stop);
    assert Outcome(IDLE, run).alarms.pending == map[7 := Copy(0, 5)];
    run := Take(IDLE, run, Fire(7, 9));
  }
}

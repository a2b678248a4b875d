/**
 Probes, their events and the incidents they open and resolve, over the scheduler's timers, as one step machine
 (src/scheduler.ts:87-137 and 147-194, over src/modules/incident/incident.service.ts).

 A timer probes through the document its load returned (`Copy`); overlapping reloads leave several timers for one
 check, each with its own. `probeAndHandle` awaits the HTTP request, then `handleProbeResult` reads the verdict its
 copy remembers, awaits the write of the new one, and only then updates the copy, compares and publishes. The bus calls
 the incident handler during the publish, and the handler runs up to its first database call.
 */
module ProbeWorld {
  import opened Common
  import opened IncidentModel
  import opened IncidentEngine
  import opened CheckModel
  import T = Timers

  type ProbeId = nat

  /** One probe: its request is out; or its result is being handled, before or after the write. */
  datatype Probe =
    | Requesting(copy: Copy)
    | Handling(copy: Copy, tenant: TenantId, prevOk: Option<bool>, last: LastResult, persisted: bool)

  /** A message on 'probe:events': a recovery, or else a failure. */
  datatype Event = Event(tenant: TenantId, check: CheckId, recovered: bool)

  datatype World = World(
    engine: State,
    clock: T.Clock,
    docs: map<LoadId, Checks>,
    probes: map<ProbeId, Probe>,
    results: seq<(CheckId, bool)>,   // every result that was persisted, in order
    events: seq<Event>)

  datatype Step =
    | Engine(a: Action)
    | Timer(k: T.Tick)
    | Request(p: ProbeId, h: T.HandleId)
    | Handle(p: ProbeId, last: LastResult)
    | Persist(p: ProbeId)
    | PersistFails(p: ProbeId)              // the write is refused
    | PersistLost(p: ProbeId)               // the write takes effect, but its answer is an error
    | Publish(p: ProbeId, op: OpId)

  const EMPTY_WORLD := World(EMPTY_STATE, T.IDLE, map[], map[], [], [])

  predicate Has(docs: map<LoadId, Checks>, copy: Copy) {
    copy.load in docs && copy.check in docs[copy.load]
  }

  function At(docs: map<LoadId, Checks>, copy: Copy): Check
    requires Has(docs, copy)
  {
    docs[copy.load][copy.check]
  }

  function OkOf(last: Option<LastResult>): Option<bool> {
    if last.Some? then Some(last.value.ok) else None
  }

  /** Does the result call for an event, and which? */
  function EventFor(probe: Probe): Option<Event>
    requires probe.Handling?
  {
    if probe.prevOk != Some(false) && !probe.last.ok then Some(Event(probe.tenant, probe.copy.check, false))
    else if probe.prevOk == Some(false) && probe.last.ok then Some(Event(probe.tenant, probe.copy.check, true))
    else None
  }

  /** The request the incident handler makes of an event. */
  function RequestFor(e: Event): Request {
    if e.recovered then ResolveIncident(e.tenant, e.check) else OpenIncident(e.tenant, e.check)
  }

  function MessageFor(e: Event): Message {
    if e.recovered then CheckRecovered(e.check) else CheckFailed(e.check)
  }

  /** The check an incident request of the handler is about. */
  function CheckOf(req: Request): Option<CheckId> {
    match req
    case OpenIncident(_, c) => Some(c)
    case ResolveIncident(_, c) => Some(c)
    case _ => None
  }

  /** The check a handler started by an event is still working on: it has not written yet. */
  function AutoCheck(o: Op): Option<CheckId> {
    match o
    case Finding(req) => CheckOf(req)
    case Creating(req) => CheckOf(req)
    case Patching(req, _, _) => CheckOf(req)
    case _ => None
  }

  /** Identifiers are fresh: nothing anywhere mentions a check that is yet to be created. */
  ghost predicate Unmentioned(w: World, c: CheckId) {
    && c !in w.clock.checks
    && (forall l | l in w.docs :: c !in w.docs[l])
    && (forall p | p in w.probes :: w.probes[p].copy.check != c)
    && (forall i | 0 <= i < |w.results| :: w.results[i].0 != c)
    && (forall i | 0 <= i < |w.events| :: w.events[i].check != c)
    && (forall id | id in w.engine.incidents :: w.engine.incidents[id].check != c)
    && (forall q | q in w.engine.ops :: AutoCheck(w.engine.ops[q]) != Some(c))
  }

  ghost predicate CanStep(w: World, step: Step) {
    match step
    case Engine(a) => Enabled(w.engine, a) && (a.Call? ==> CheckOf(a.req).None?)
    case Timer(k) => T.CanTick(w.clock, k) && (k.Crud? && k.req.CreateCheck? ==> Unmentioned(w, k.newId))
    case Request(p, h) => p !in w.probes && h in w.clock.alarms.live && Has(w.docs, w.clock.alarms.live[h])
    case Handle(p, _) => p in w.probes && w.probes[p].Requesting? && Has(w.docs, w.probes[p].copy)
    case Persist(p) => p in w.probes && w.probes[p].Handling? && !w.probes[p].persisted
    case PersistFails(p) => p in w.probes && w.probes[p].Handling? && !w.probes[p].persisted
    case PersistLost(p) => p in w.probes && w.probes[p].Handling? && !w.probes[p].persisted
    case Publish(p, op) =>
      && p in w.probes && w.probes[p].Handling? && w.probes[p].persisted && Has(w.docs, w.probes[p].copy)
      && op !in w.engine.ops
  }

  /** The documents a load returns: the enabled checks, as stored. */
  function Loaded(checks: Checks): Checks {
    map c | c in checks && checks[c].enabled :: checks[c]
  }

  /** The probing copy remembers the result. */
  function Remembered(docs: map<LoadId, Checks>, copy: Copy, last: LastResult): map<LoadId, Checks>
    requires Has(docs, copy)
  {
    docs[copy.load := Recorded(docs[copy.load], copy.check, last)]
  }

  /** The result is stored with the check, if it still exists. */
  function Noted(w: World, c: CheckId, last: LastResult): World {
    w.(clock := w.clock.(checks := Recorded(w.clock.checks, c, last)), results := w.results + [(c, last.ok)])
  }

  /** The publishes of an event, and the handler they start. */
  function Announced(s: State, e: Option<Event>, op: OpId): State {
    if e.None? then s
    else
      s.(ops := s.ops[op := Finding(RequestFor(e.value))],
         published := s.published + [Publication(e.value.tenant, MessageFor(e.value))])
  }

  function After(w: World, step: Step): World
    requires CanStep(w, step)
  {
    match step
    case Engine(a) => w.(engine := Next(w.engine, a))
    case Timer(k) =>
      w.(clock := T.After(w.clock, k), docs := if k.ReadDb? then w.docs[k.load := Loaded(w.clock.checks)] else w.docs)
    case Request(p, h) => w.(probes := w.probes[p := Requesting(w.clock.alarms.live[h])])
    case Handle(p, last) =>
      var copy := w.probes[p].copy;
      var doc := At(w.docs, copy);
      w.(probes := w.probes[p := Handling(copy, doc.tenant, OkOf(doc.lastResult), last, false)])
    case Persist(p) =>
      var probe := w.probes[p];
      Noted(w, probe.copy.check, probe.last).(probes := w.probes[p := probe.(persisted := true)])
    case PersistFails(p) => w.(probes := w.probes - {p})
    case PersistLost(p) =>
      var probe := w.probes[p];
      Noted(w, probe.copy.check, probe.last).(probes := w.probes - {p})
    case Publish(p, op) =>
      var probe := w.probes[p];
      var e := EventFor(probe);
      w.(probes := w.probes - {p},
         docs := Remembered(w.docs, probe.copy, probe.last),
         events := if e.Some? then w.events + [e.value] else w.events,
         engine := Announced(w.engine, e, op))
  }

  ghost predicate Possible(w: World, run: seq<Step>)
    decreases |run|
  {
    run == [] || (CanStep(w, run[0]) && Possible(After(w, run[0]), run[1..]))
  }

  ghost function Outcome(w: World, run: seq<Step>): World
    requires Possible(w, run)
    decreases |run|
  {
    if run == [] then w else Outcome(After(w, run[0]), run[1..])
  }

  // ----- Every timer finds its copy -----

  /** Loads are filed once, when they are answered, and every copy in use is filed. */
  ghost predicate Filed(w: World) {
    var loads, al := w.clock.loads, w.clock.alarms;
    && (forall l | l in loads.waiting :: l in loads.begun)
    && (forall l | l in w.docs :: l in loads.begun && (l in loads.waiting ==> loads.waiting[l].Some?))
    && (forall l | l in loads.waiting && loads.waiting[l].Some? :: l in w.docs && loads.waiting[l].value <= w.docs[l].Keys)
    && (forall h | h in al.live :: Has(w.docs, al.live[h]))
    && (forall i | i in al.pending :: Has(w.docs, al.pending[i]))
    && (forall p | p in w.probes :: Has(w.docs, w.probes[p].copy))
  }

  lemma TickFiled(w: World, k: T.Tick)
    requires CanStep(w, Timer(k)) && Filed(w)
    ensures Filed(After(w, Timer(k)))
  {
    var w' := After(w, Timer(k));
    assert forall copy: Copy | Has(w.docs, copy) :: Has(w'.docs, copy);
    if k.Schedule? {
      var al' := w'.clock.alarms;
      forall i | i in al'.pending
        ensures Has(w'.docs, al'.pending[i])
      {
        if i in k.jitter {
          assert k.jitter[i] in T.ChecksOf(k.jitter);
          assert al'.pending[i] == Copy(k.load, k.jitter[i]);
        }
      }
    }
  }

  lemma StepFiled(w: World, step: Step)
    requires CanStep(w, step) && Filed(w)
    ensures Filed(After(w, step))
  {
    if step.Timer? {
      TickFiled(w, step.k);
    } else if step.Publish? {
      var w' := After(w, step);
      assert forall copy: Copy :: Has(w.docs, copy) <==> Has(w'.docs, copy);
      assert forall l | l in w.docs :: l in w'.docs && w'.docs[l].Keys == w.docs[l].Keys;
    }
  }

  lemma {:induction false} RunFiled(w: World, run: seq<Step>)
    requires Possible(w, run) && Filed(w)
    ensures Filed(Outcome(w, run))
    decreases |run|
  {
    if run != [] {
      StepFiled(w, run[0]);
      RunFiled(After(w, run[0]), run[1..]);
    }
  }

  /** Every running interval can probe: the copy it closes over is in memory. */
  lemma {:induction false} EveryTimerHasItsCopy(run: seq<Step>, p: ProbeId, h: T.HandleId)
    requires Possible(EMPTY_WORLD, run)
    requires p !in Outcome(EMPTY_WORLD, run).probes && h in Outcome(EMPTY_WORLD, run).clock.alarms.live
    ensures CanStep(Outcome(EMPTY_WORLD, run), Request(p, h))
  {
    RunFiled(EMPTY_WORLD, run);
  }

  // ----- The histories of one check -----

  /** The persisted results of check `c`. */
  function ResultsFor(results: seq<(CheckId, bool)>, c: CheckId): seq<bool> {
    if results == [] then []
    else
      var rest := ResultsFor(results[..|results| - 1], c);
      var last := results[|results| - 1];
      if last.0 == c then rest + [last.1] else rest
  }

  /** The events of check `c` on 'probe:events': true for a recovery. */
  function EventsFor(events: seq<Event>, c: CheckId): seq<bool> {
    if events == [] then []
    else
      var rest := EventsFor(events[..|events| - 1], c);
      var last := events[|events| - 1];
      if last.check == c then rest + [last.recovered] else rest
  }

  /** The events of check `c` among the messages on the tenants' channels. */
  function PublishedFor(published: seq<Publication>, c: CheckId): seq<bool> {
    if published == [] then []
    else
      var rest := PublishedFor(published[..|published| - 1], c);
      match published[|published| - 1].message
      case CheckFailed(d) => if d == c then rest + [false] else rest
      case CheckRecovered(d) => if d == c then rest + [true] else rest
      case _ => rest
  }

  /** The last result, if any. */
  function LastOk(results: seq<bool>): Option<bool> {
    if results == [] then None else Some(results[|results| - 1])
  }

  /** A check counts as passing until a result says otherwise. */
  function Passing(results: seq<bool>): bool {
    LastOk(results) != Some(false)
  }

  /** The results that differ from what was believed just before them. */
  function ChangePoints(results: seq<bool>): seq<bool> {
    if results == [] then []
    else
      var before := results[..|results| - 1];
      var now := results[|results| - 1];
      ChangePoints(before) + if now != Passing(before) then [now] else []
  }

  lemma {:induction false} ResultsAppend(results: seq<(CheckId, bool)>, r: (CheckId, bool), c: CheckId)
    ensures ResultsFor(results + [r], c) == if r.0 == c then ResultsFor(results, c) + [r.1] else ResultsFor(results, c)
  {
    assert (results + [r])[..|results + [r]| - 1] == results;
  }

  lemma {:induction false} EventsAppend(events: seq<Event>, e: Event, c: CheckId)
    ensures EventsFor(events + [e], c) == if e.check == c then EventsFor(events, c) + [e.recovered] else EventsFor(events, c)
  {
    assert (events + [e])[..|events + [e]| - 1] == events;
  }

  lemma {:induction false} PublishedAppend(published: seq<Publication>, p: Publication, c: CheckId)
    ensures PublishedFor(published + [p], c) == PublishedFor(published, c) + PublishedFor([p], c)
  {
    assert (published + [p])[..|published + [p]| - 1] == published;
    assert [p][..0] == [];
  }

  lemma {:induction false} ChangePointsAppend(results: seq<bool>, now: bool)
    ensures ChangePoints(results + [now]) == ChangePoints(results) + if now != Passing(results) then [now] else []
  {
    assert (results + [now])[..|results + [now]| - 1] == results;
  }

  /** Nothing persisted about a check means no results about it. */
  lemma {:induction false} NoResults(results: seq<(CheckId, bool)>, c: CheckId)
    requires forall i | 0 <= i < |results| :: results[i].0 != c
    ensures ResultsFor(results, c) == []
  {
    if results != [] {
      NoResults(results[..|results| - 1], c);
    }
  }

  /** Change points strictly alternate, a failure first, and the last one says whether the check passes. */
  lemma {:induction false} ChangePointsAlternate(results: seq<bool>)
    ensures var cs := ChangePoints(results);
            && (cs != [] ==> !cs[0])
            && (forall i | 0 < i < |cs| :: cs[i] != cs[i - 1])
            && Passing(results) == (cs == [] || cs[|cs| - 1])
  {
    if results != [] {
      ChangePointsAlternate(results[..|results| - 1]);
    }
  }
}

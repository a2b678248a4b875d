/**
 The events of a check are exactly the changes of its verdict, when the copies that probe it are believable
 (src/scheduler.ts:87-137, 147-194).
 */
module TransitionStream {
  import opened Common
  import opened IncidentModel
  import opened IncidentEngine
  import opened CheckModel
  import opened ProbeWorld
  import T = Timers

  // ----- Hypotheses about one check -----

  /** Results of check `c` are handled one at a time; requests may overlap. */
  ghost predicate Alone(w: World, step: Step, c: CheckId) {
    step.Handle? && step.p in w.probes && w.probes[step.p].copy.check == c ==>
      forall p | p in w.probes && w.probes[p].Handling? :: w.probes[p].copy.check != c
  }

  /** Does a copy that remembers `prevOk` agree with the results persisted so far? */
  predicate Agrees(prevOk: Option<bool>, results: seq<bool>) {
    (prevOk != Some(false)) == Passing(results)
  }

  /** Is this a step of the handling of a result of `c`? */
  predicate Concerns(w: World, p: ProbeId, c: CheckId) {
    p in w.probes && w.probes[p].Handling? && w.probes[p].copy.check == c
  }

  /**
   A result of `c` is persisted only through a copy whose memory agrees with the results persisted before it, and a
   result that nobody hears of, because the answer to its write is lost, repeats the verdict before it.
   */
  ghost predicate Believed(w: World, step: Step, c: CheckId) {
    match step
    case Persist(p) => Concerns(w, p, c) ==> Agrees(w.probes[p].prevOk, ResultsFor(w.results, c))
    case PersistLost(p) => Concerns(w, p, c) ==> w.probes[p].last.ok == Passing(ResultsFor(w.results, c))
    case _ => true
  }

  /** No change of the verdict of `c` is lost with the answer to its write. */
  ghost predicate NoneLost(w: World, step: Step, c: CheckId) {
    step.PersistLost? && Concerns(w, step.p, c) ==> w.probes[step.p].last.ok == Passing(ResultsFor(w.results, c))
  }

  /**
   Check `c` is probed only through the copy of the load answered last, loads are answered between its probes, and no
   change of its verdict is lost.
   */
  ghost predicate LastLoadOnly(w: World, step: Step, c: CheckId) {
    NoneLost(w, step, c)
    && match step
    case Request(_, h) =>
      h in w.clock.alarms.live && w.clock.alarms.live[h].check == c ==>
        Some(w.clock.alarms.live[h].load) == w.clock.loads.answered
    case Timer(k) => k.ReadDb? ==> NoneInFlight(w, c)
    case _ => true
  }

  /** No probe of `c` is between its request and its write. */
  ghost predicate NoneInFlight(w: World, c: CheckId) {
    forall p | p in w.probes && w.probes[p].copy.check == c :: w.probes[p].Handling? && w.probes[p].persisted
  }

  /**
   Reloads and stops begin only when the last reload has settled, no load is answered with a probe of `c` in flight, and
   no change of its verdict is lost.
   */
  ghost predicate CalmFor(w: World, step: Step, c: CheckId) {
    NoneLost(w, step, c) && (step.Timer? ==> T.Calm(w.clock, step.k) && (step.k.ReadDb? ==> NoneInFlight(w, c)))
  }

  ghost predicate AloneRun(w: World, run: seq<Step>, c: CheckId)
    requires Possible(w, run)
    decreases |run|
  {
    run != [] ==> Alone(w, run[0], c) && AloneRun(After(w, run[0]), run[1..], c)
  }

  ghost predicate BelievedRun(w: World, run: seq<Step>, c: CheckId)
    requires Possible(w, run)
    decreases |run|
  {
    run != [] ==> Believed(w, run[0], c) && BelievedRun(After(w, run[0]), run[1..], c)
  }

  ghost predicate LastLoadRun(w: World, run: seq<Step>, c: CheckId)
    requires Possible(w, run)
    decreases |run|
  {
    run != [] ==> LastLoadOnly(w, run[0], c) && LastLoadRun(After(w, run[0]), run[1..], c)
  }

  ghost predicate CalmRun(w: World, run: seq<Step>, c: CheckId)
    requires Possible(w, run)
    decreases |run|
  {
    run != [] ==> CalmFor(w, run[0], c) && CalmRun(After(w, run[0]), run[1..], c)
  }

  // ----- The stream -----

  /** Probe `p` is a result of `c` between its write and its publish. */
  predicate Pending(w: World, p: ProbeId, c: CheckId) {
    Concerns(w, p, c) && w.probes[p].persisted
  }

  ghost predicate Flushed(w: World, c: CheckId) {
    forall p :: !Pending(w, p, c)
  }

  /** The events are the change points of what has been persisted. */
  ghost predicate Exact(w: World, c: CheckId) {
    EventsFor(w.events, c) == ChangePoints(ResultsFor(w.results, c))
  }

  /** The results before the last one. */
  function Earlier(results: seq<bool>): seq<bool> {
    if results == [] then [] else results[..|results| - 1]
  }

  /** One result of `c` is handled at a time, and one waiting for its publish is the last persisted. */
  ghost predicate Single(w: World, c: CheckId) {
    var results := ResultsFor(w.results, c);
    && (forall p, q | Concerns(w, p, c) && Concerns(w, q, c) :: p == q)
    && (forall p | Pending(w, p, c) :: results != [] && results[|results| - 1] == w.probes[p].last.ok)
  }

  /** The events are exact but for the result not yet published. */
  ghost predicate Lined(w: World, c: CheckId) {
    var results := ResultsFor(w.results, c);
    && Single(w, c)
    && (forall p | Pending(w, p, c) :: EventsFor(w.events, c) == ChangePoints(Earlier(results)))
    && (Flushed(w, c) ==> Exact(w, c))
  }

  /** The result waiting for its publish was handled through a copy that agreed. */
  ghost predicate PendingAgrees(w: World, c: CheckId) {
    var results := ResultsFor(w.results, c);
    forall p | Pending(w, p, c) :: results != [] && Agrees(w.probes[p].prevOk, Earlier(results))
  }

  function NewsOf(e: Option<Event>, c: CheckId): seq<bool> {
    if e.Some? && e.value.check == c then [e.value.recovered] else []
  }

  lemma AnnouncedLogs(s: State, e: Option<Event>, op: OpId, c: CheckId)
    ensures PublishedFor(Announced(s, e, op).published, c) == PublishedFor(s.published, c) + NewsOf(e, c)
  {
    if e.Some? {
      var pub := Publication(e.value.tenant, MessageFor(e.value));
      PublishedAppend(s.published, pub, c);
      assert [pub][..0] == [] && PublishedFor([], c) == [];
    }
  }

  /** A publish adds the same event, if any, to both channels. */
  lemma PublishLogs(w: World, step: Step, c: CheckId)
    requires CanStep(w, step) && step.Publish?
    ensures var news := NewsOf(EventFor(w.probes[step.p]), c);
            && EventsFor(After(w, step).events, c) == EventsFor(w.events, c) + news
            && PublishedFor(After(w, step).engine.published, c) == PublishedFor(w.engine.published, c) + news
  {
    var e := EventFor(w.probes[step.p]);
    AnnouncedLogs(w.engine, e, step.op, c);
    if e.Some? {
      EventsAppend(w.events, e.value, c);
    }
  }

  /** Steps that leave the results and pending results of `c`, and its events, as they are. */
  predicate Quiet(w: World, step: Step, c: CheckId) {
    match step
    case Persist(p) => p in w.probes ==> w.probes[p].copy.check != c
    case PersistLost(p) => p in w.probes ==> w.probes[p].copy.check != c
    case Publish(p, _) => p in w.probes ==> w.probes[p].copy.check != c
    case _ => true
  }

  lemma QuietPending(w: World, step: Step, c: CheckId)
    requires CanStep(w, step) && Quiet(w, step, c)
    ensures forall p :: Pending(After(w, step), p, c) <==> Pending(w, p, c)
    ensures forall p | Pending(w, p, c) :: After(w, step).probes[p] == w.probes[p]
    ensures Flushed(After(w, step), c) == Flushed(w, c)
  {
  }

  lemma QuietHandling(w: World, step: Step, c: CheckId)
    requires CanStep(w, step) && Quiet(w, step, c)
    ensures forall p | Concerns(After(w, step), p, c) ::
              Concerns(w, p, c) || (step.Handle? && p == step.p && w.probes[p].copy.check == c)
  {
  }

  lemma QuietResults(w: World, step: Step, c: CheckId)
    requires CanStep(w, step) && Quiet(w, step, c)
    ensures ResultsFor(After(w, step).results, c) == ResultsFor(w.results, c)
  {
    if step.Persist? || step.PersistLost? {
      ResultsAppend(w.results, (w.probes[step.p].copy.check, w.probes[step.p].last.ok), c);
    }
  }

  lemma QuietEvents(w: World, step: Step, c: CheckId)
    requires CanStep(w, step) && Quiet(w, step, c)
    ensures EventsFor(After(w, step).events, c) == EventsFor(w.events, c)
  {
    if step.Publish? {
      PublishLogs(w, step, c);
    }
  }

  /** The write makes the result the last one, and the one before it the earlier ones. */
  lemma OwnPersist(w: World, step: Step, c: CheckId)
    requires CanStep(w, step) && step.Persist? && w.probes[step.p].copy.check == c && Single(w, c)
    ensures var w' := After(w, step);
            var results' := ResultsFor(w'.results, c);
            && Single(w', c) && Flushed(w, c) && !Flushed(w', c)
            && (forall p :: Pending(w', p, c) <==> p == step.p)
            && results' != [] && Earlier(results') == ResultsFor(w.results, c)
            && w'.probes[step.p].prevOk == w.probes[step.p].prevOk
  {
    var w' := After(w, step);
    ResultsAppend(w.results, (c, w.probes[step.p].last.ok), c);
    assert Concerns(w, step.p, c) && Pending(w', step.p, c);
    assert forall p | Concerns(w', p, c) :: Concerns(w, p, c);
  }

  /** After the publish nothing of `c` is being handled. */
  lemma OwnPublish(w: World, step: Step, c: CheckId)
    requires CanStep(w, step) && step.Publish? && w.probes[step.p].copy.check == c && Single(w, c)
    ensures var w' := After(w, step);
            && Single(w', c) && Flushed(w', c) && w'.results == w.results
            && (forall p :: !Concerns(w', p, c)) && (forall p :: Pending(w, p, c) <==> p == step.p)
  {
    var w' := After(w, step);
    assert Concerns(w, step.p, c) && Pending(w, step.p, c);
    assert forall p | Concerns(w', p, c) :: Concerns(w, p, c) && p != step.p;
  }

  /** So it is when the answer to the write is lost; the result is the last one all the same. */
  lemma OwnLost(w: World, step: Step, c: CheckId)
    requires CanStep(w, step) && step.PersistLost? && w.probes[step.p].copy.check == c && Single(w, c)
    ensures var w' := After(w, step);
            && Single(w', c) && Flushed(w, c) && Flushed(w', c)
            && (forall p :: !Concerns(w', p, c))
            && ResultsFor(w'.results, c) == ResultsFor(w.results, c) + [w.probes[step.p].last.ok]
            && w'.events == w.events
  {
    var w' := After(w, step);
    ResultsAppend(w.results, (c, w.probes[step.p].last.ok), c);
    assert Concerns(w, step.p, c);
    assert forall p | Concerns(w', p, c) :: Concerns(w, p, c) && p != step.p;
    assert forall p :: !Pending(w', p, c) && !Pending(w, p, c);
  }

  lemma StepSingle(w: World, step: Step, c: CheckId)
    requires CanStep(w, step) && Alone(w, step, c) && Single(w, c)
    ensures Single(After(w, step), c)
  {
    if Quiet(w, step, c) {
      QuietPending(w, step, c);
      QuietHandling(w, step, c);
      QuietResults(w, step, c);
    } else {
      match step
      case Persist(_) => OwnPersist(w, step, c);
      case PersistLost(_) => OwnLost(w, step, c);
      case Publish(_, _) => OwnPublish(w, step, c);
    }
  }

  lemma PersistLined(w: World, step: Step, c: CheckId)
    requires CanStep(w, step) && step.Persist? && Lined(w, c) && w.probes[step.p].copy.check == c
    ensures Lined(After(w, step), c)
    ensures PendingAgrees(After(w, step), c) <==> Believed(w, step, c)
  {
    OwnPersist(w, step, c);
    assert After(w, step).events == w.events;
  }

  /** The publish adds the missing event exactly when the copy agreed. */
  lemma PublishExactly(w: World, step: Step, c: CheckId)
    requires CanStep(w, step) && step.Publish? && Lined(w, c) && w.probes[step.p].copy.check == c
    ensures Flushed(After(w, step), c)
    ensures Exact(After(w, step), c) <==> PendingAgrees(w, c)
    ensures Exact(After(w, step), c) ==> Lined(After(w, step), c) && PendingAgrees(After(w, step), c)
  {
    var probe := w.probes[step.p];
    var results := ResultsFor(w.results, c);
    OwnPublish(w, step, c);
    OwnNews(w, step, c);
    assert Pending(w, step.p, c);
    SplitLast(results, probe.last.ok);
    OneMorePoint(EventsFor(w.events, c), Earlier(results), probe.prevOk, probe.last.ok);
  }

  lemma {:induction false} SplitLast(results: seq<bool>, ok: bool)
    requires results != [] && results[|results| - 1] == ok
    ensures results == Earlier(results) + [ok]
  {
  }

  /** What the copy remembers decides whether the result becomes an event. */
  function News(prevOk: Option<bool>, ok: bool): seq<bool> {
    if (prevOk != Some(false)) != ok then [ok] else []
  }

  lemma OwnNews(w: World, step: Step, c: CheckId)
    requires CanStep(w, step) && step.Publish? && w.probes[step.p].copy.check == c
    ensures EventsFor(After(w, step).events, c) ==
            EventsFor(w.events, c) + News(w.probes[step.p].prevOk, w.probes[step.p].last.ok)
  {
    PublishLogs(w, step, c);
  }

  /** What a copy remembering `prevOk` adds to exact events is exact if and only if it agreed. */
  lemma {:induction false} OneMorePoint(events: seq<bool>, before: seq<bool>, prevOk: Option<bool>, ok: bool)
    requires events == ChangePoints(before)
    ensures events + News(prevOk, ok) == ChangePoints(before + [ok]) <==> Agrees(prevOk, before)
  {
    ChangePointsAppend(before, ok);
    assert |events + [ok]| != |events|;
  }

  /** A result whose answer is lost leaves the events exact if and only if it changes nothing. */
  lemma LostExactly(w: World, step: Step, c: CheckId)
    requires CanStep(w, step) && step.PersistLost? && Lined(w, c) && w.probes[step.p].copy.check == c
    ensures Flushed(After(w, step), c)
    ensures Exact(After(w, step), c) <==> Believed(w, step, c)
    ensures Exact(After(w, step), c) ==> Lined(After(w, step), c) && PendingAgrees(After(w, step), c)
  {
    OwnLost(w, step, c);
    ChangePointsAppend(ResultsFor(w.results, c), w.probes[step.p].last.ok);
    assert Concerns(w, step.p, c);
  }

  lemma QuietLined(w: World, step: Step, c: CheckId)
    requires CanStep(w, step) && Alone(w, step, c) && Lined(w, c) && Quiet(w, step, c)
    ensures Lined(After(w, step), c) && Believed(w, step, c)
    ensures PendingAgrees(After(w, step), c) <==> PendingAgrees(w, c)
    ensures Exact(After(w, step), c) <==> Exact(w, c)
    ensures Flushed(After(w, step), c) <==> Flushed(w, c)
  {
    StepSingle(w, step, c);
    QuietPending(w, step, c);
    QuietResults(w, step, c);
    QuietEvents(w, step, c);
  }

  lemma StepLined(w: World, step: Step, c: CheckId)
    requires CanStep(w, step) && Alone(w, step, c) && Lined(w, c) && PendingAgrees(w, c)
    requires step.PersistLost? ==> Believed(w, step, c)
    ensures Lined(After(w, step), c)
    ensures PendingAgrees(After(w, step), c) <==> Believed(w, step, c)
  {
    if Quiet(w, step, c) {
      QuietLined(w, step, c);
    } else {
      match step
      case Persist(_) => PersistLined(w, step, c);
      case PersistLost(_) => LostExactly(w, step, c);
      case Publish(_, _) => PublishExactly(w, step, c);
    }
  }

  // ----- Exactly when the stream is exact -----

  /** At every point of the run with nothing waiting for its publish, the events are exact. */
  ghost predicate ExactAlong(w: World, run: seq<Step>, c: CheckId)
    requires Possible(w, run)
    decreases |run|
  {
    && (Flushed(w, c) ==> Exact(w, c))
    && (run != [] ==> ExactAlong(After(w, run[0]), run[1..], c))
  }

  lemma {:induction false} RunExactly(w: World, run: seq<Step>, c: CheckId)
    requires Possible(w, run) && AloneRun(w, run, c) && Lined(w, c) && Flushed(Outcome(w, run), c)
    ensures ExactAlong(w, run, c) <==> PendingAgrees(w, c) && BelievedRun(w, run, c)
    decreases |run|
  {
    if run != [] {
      var step, w' := run[0], After(w, run[0]);
      if Quiet(w, step, c) {
        QuietLined(w, step, c);
        RunExactly(w', run[1..], c);
      } else if step.Persist? {
        OwnPersist(w, step, c);
        PersistLined(w, step, c);
        RunExactly(w', run[1..], c);
      } else {
        if step.Publish? {
          PublishExactly(w, step, c);
        } else {
          OwnLost(w, step, c);
          LostExactly(w, step, c);
        }
        if Exact(w', c) {
          RunExactly(w', run[1..], c);
        }
      }
    }
  }

  /**
   When the results of a check do not overlap, its events are its change points, at every point with nothing waiting
   for its publish, if and only if each result was persisted through a copy whose remembered verdict agreed with the
   results before it, or repeated the verdict before it when the answer to its write was lost.
   */
  lemma {:induction false} ExactWhenBelieved(run: seq<Step>, c: CheckId)
    requires Possible(EMPTY_WORLD, run) && AloneRun(EMPTY_WORLD, run, c) && Flushed(Outcome(EMPTY_WORLD, run), c)
    ensures ExactAlong(EMPTY_WORLD, run, c) <==> BelievedRun(EMPTY_WORLD, run, c)
  {
    RunExactly(EMPTY_WORLD, run, c);
  }

  /**
   One result at a time: whatever its verdict, the next result of the check keeps the stream exact if and only if the
   copy it comes through remembers a verdict that agrees with the results so far.
   */
  lemma NextResultIsExact(w: World, p: ProbeId, last: LastResult, op: OpId, c: CheckId)
    requires CanStep(w, Handle(p, last)) && w.probes[p].copy.check == c && Alone(w, Handle(p, last), c)
    requires Lined(w, c) && Flushed(w, c) && op !in w.engine.ops
    ensures var handled := After(w, Handle(p, last));
            && CanStep(handled, Persist(p)) && CanStep(After(handled, Persist(p)), Publish(p, op))
            && (Exact(After(After(handled, Persist(p)), Publish(p, op)), c) <==>
                  Agrees(OkOf(At(w.docs, w.probes[p].copy).lastResult), ResultsFor(w.results, c)))
  {
    StepLined(w, Handle(p, last), c);
    var handled := After(w, Handle(p, last));
    StepLined(handled, Persist(p), c);
    PublishExactly(After(handled, Persist(p)), Publish(p, op), c);
  }

  // ----- The stream with believable copies -----

  /** The stored verdict is the last result; every copy and result belongs to the check's tenant. */
  ghost predicate Stored(w: World, c: CheckId) {
    c in w.clock.checks ==>
      && OkOf(w.clock.checks[c].lastResult) == LastOk(ResultsFor(w.results, c))
      && (forall l | l in w.docs && c in w.docs[l] :: w.docs[l][c].tenant == w.clock.checks[c].tenant)
      && (forall p | p in w.probes && w.probes[p].Handling? && w.probes[p].copy.check == c ::
            w.probes[p].tenant == w.clock.checks[c].tenant)
  }

  ghost predicate SameChannels(w: World, c: CheckId) {
    PublishedFor(w.engine.published, c) == EventsFor(w.events, c)
  }

  ghost predicate StreamInv(w: World, c: CheckId) {
    Lined(w, c) && PendingAgrees(w, c) && Stored(w, c) && SameChannels(w, c)
  }

  /** The engine's own steps publish no check event. */
  lemma EngineStepPublishes(s: State, a: Action, c: CheckId)
    requires Enabled(s, a)
    ensures PublishedFor(Next(s, a).published, c) == PublishedFor(s.published, c)
  {
    if a.Resume? {
      var p := Publication(s.ops[a.op].req.tenant, MessageOf(s.ops[a.op]));
      PublishedAppend(s.published, p, c);
      assert [p][..0] == [];
    }
  }

  lemma StepChannels(w: World, step: Step, c: CheckId)
    requires CanStep(w, step) && SameChannels(w, c)
    ensures SameChannels(After(w, step), c)
  {
    match step
    case Engine(a) => EngineStepPublishes(w.engine, a, c);
    case Publish(_, _) => PublishLogs(w, step, c);
    case _ =>
  }

  /** The write stores the result that it adds. */
  lemma NotedIsStored(w: World, step: Step, c: CheckId)
    requires CanStep(w, step) && (step.Persist? || step.PersistLost?) && Stored(w, c)
    ensures Stored(After(w, step), c)
  {
    ResultsAppend(w.results, (w.probes[step.p].copy.check, w.probes[step.p].last.ok), c);
  }

  lemma StepStored(w: World, step: Step, c: CheckId)
    requires CanStep(w, step) && Stored(w, c)
    ensures Stored(After(w, step), c)
  {
    if step.Persist? || step.PersistLost? {
      NotedIsStored(w, step, c);
    } else if step.Timer? {
      var checks, after := w.clock.checks, After(w, step).clock.checks;
      if step.k.Crud? && step.k.req.CreateCheck? && step.k.newId == c {
        NoResults(w.results, c);
      }
      assert c in after && c in checks ==> after[c].tenant == checks[c].tenant;
    }
  }

  lemma StepStreams(w: World, step: Step, c: CheckId)
    requires CanStep(w, step) && Alone(w, step, c) && Believed(w, step, c) && StreamInv(w, c)
    ensures StreamInv(After(w, step), c)
  {
    StepLined(w, step, c);
    StepStored(w, step, c);
    StepChannels(w, step, c);
  }

  lemma {:induction false} RunStreams(w: World, run: seq<Step>, c: CheckId)
    requires Possible(w, run) && AloneRun(w, run, c) && BelievedRun(w, run, c) && StreamInv(w, c)
    ensures StreamInv(Outcome(w, run), c)
    decreases |run|
  {
    if run != [] {
      StepStreams(w, run[0], c);
      RunStreams(After(w, run[0]), run[1..], c);
    }
  }

  /**
   When the results of a check do not overlap and its copies are believable: its events are the change points of its
   persisted results, a probe whose write fails adds to neither, failures and recoveries alternate strictly, and the
   tenant's channel carries the same events.
   */
  lemma {:induction false} EventsAreChangePoints(run: seq<Step>, c: CheckId)
    requires Possible(EMPTY_WORLD, run) && AloneRun(EMPTY_WORLD, run, c) && BelievedRun(EMPTY_WORLD, run, c)
    ensures var w := Outcome(EMPTY_WORLD, run);
            var events := EventsFor(w.events, c);
            && (Flushed(w, c) ==> Exact(w, c) && Passing(ResultsFor(w.results, c)) == (events == [] || events[|events| - 1]))
            && (events != [] ==> !events[0])
            && (forall i | 0 < i < |events| :: events[i] != events[i - 1])
            && PublishedFor(w.engine.published, c) == events
  {
    RunStreams(EMPTY_WORLD, run, c);
    var w := Outcome(EMPTY_WORLD, run);
    var results := ResultsFor(w.results, c);
    if Flushed(w, c) {
      ChangePointsAlternate(results);
    } else {
      var p :| Pending(w, p, c);
      ChangePointsAlternate(Earlier(results));
    }
  }

  /** What else happens, to other checks or in other tenants, does not show: equal results give equal events. */
  lemma {:induction false} EventsDependOnOwnResults(run: seq<Step>, other: seq<Step>, c: CheckId)
    requires Possible(EMPTY_WORLD, run) && AloneRun(EMPTY_WORLD, run, c) && BelievedRun(EMPTY_WORLD, run, c)
    requires Possible(EMPTY_WORLD, other) && AloneRun(EMPTY_WORLD, other, c) && BelievedRun(EMPTY_WORLD, other, c)
    requires Flushed(Outcome(EMPTY_WORLD, run), c) && Flushed(Outcome(EMPTY_WORLD, other), c)
    requires ResultsFor(Outcome(EMPTY_WORLD, run).results, c) == ResultsFor(Outcome(EMPTY_WORLD, other).results, c)
    ensures EventsFor(Outcome(EMPTY_WORLD, run).events, c) == EventsFor(Outcome(EMPTY_WORLD, other).events, c)
  {
    EventsAreChangePoints(run, c);
    EventsAreChangePoints(other, c);
  }

  // ----- Only the check's own tenant hears of it -----

  /** Every event and every message about `c` goes to the tenant of the check. */
  ghost predicate OnOwnChannel(w: World, c: CheckId) {
    c in w.clock.checks ==>
      && (forall i | 0 <= i < |w.events| && w.events[i].check == c :: w.events[i].tenant == w.clock.checks[c].tenant)
      && (forall i | 0 <= i < |w.engine.published| && Mentions(w.engine.published[i].message, c) ::
            w.engine.published[i].tenant == w.clock.checks[c].tenant)
  }

  predicate Mentions(message: Message, c: CheckId) {
    message == CheckFailed(c) || message == CheckRecovered(c)
  }

  lemma {:induction false} NoMessages(published: seq<Publication>, c: CheckId)
    requires PublishedFor(published, c) == []
    ensures forall i | 0 <= i < |published| :: !Mentions(published[i].message, c)
  {
    if published != [] {
      NoMessages(published[..|published| - 1], c);
    }
  }

  lemma {:induction false} NoEvents(events: seq<Event>, c: CheckId)
    requires forall i | 0 <= i < |events| :: events[i].check != c
    ensures EventsFor(events, c) == []
  {
    if events != [] {
      NoEvents(events[..|events| - 1], c);
    }
  }

  lemma PublishOwnChannel(w: World, step: Step, c: CheckId)
    requires CanStep(w, step) && step.Publish? && Stored(w, c) && OnOwnChannel(w, c)
    ensures OnOwnChannel(After(w, step), c)
  {
    var w' := After(w, step);
    var probe := w.probes[step.p];
    assert w'.clock == w.clock;
    assert forall i | 0 <= i < |w.events| :: w'.events[i] == w.events[i];
    assert forall i | 0 <= i < |w.engine.published| :: w'.engine.published[i] == w.engine.published[i];
    assert c in w.clock.checks && probe.copy.check == c ==> probe.tenant == w.clock.checks[c].tenant;
  }

  lemma StepOwnChannel(w: World, step: Step, c: CheckId)
    requires CanStep(w, step) && Stored(w, c) && SameChannels(w, c) && OnOwnChannel(w, c)
    ensures OnOwnChannel(After(w, step), c)
  {
    if step.Timer? && c !in w.clock.checks && c in After(w, step).clock.checks {
      NoEvents(w.events, c);
      NoMessages(w.engine.published, c);
    } else if step.Timer? {
      assert c in After(w, step).clock.checks ==> After(w, step).clock.checks[c].tenant == w.clock.checks[c].tenant;
    } else if step.Publish? {
      PublishOwnChannel(w, step, c);
    } else {
      assert After(w, step).events == w.events;
      assert c in After(w, step).clock.checks ==>
               c in w.clock.checks && After(w, step).clock.checks[c].tenant == w.clock.checks[c].tenant;
    }
  }

  lemma {:induction false} RunOwnChannel(w: World, run: seq<Step>, c: CheckId)
    requires Possible(w, run) && Stored(w, c) && SameChannels(w, c) && OnOwnChannel(w, c)
    ensures OnOwnChannel(Outcome(w, run), c)
    decreases |run|
  {
    if run != [] {
      StepOwnChannel(w, run[0], c);
      StepStored(w, run[0], c);
      StepChannels(w, run[0], c);
      RunOwnChannel(After(w, run[0]), run[1..], c);
    }
  }

  /** In every run at all, whatever its copies remember: only a check's own tenant hears of its events. */
  lemma {:induction false} OnlyTheTenantHears(run: seq<Step>, c: CheckId)
    requires Possible(EMPTY_WORLD, run)
    ensures var w := Outcome(EMPTY_WORLD, run);
            c in w.clock.checks ==>
              && (forall i | 0 <= i < |w.events| && w.events[i].check == c :: w.events[i].tenant == w.clock.checks[c].tenant)
              && (forall i | 0 <= i < |w.engine.published| && Mentions(w.engine.published[i].message, c) ::
                    w.engine.published[i].tenant == w.clock.checks[c].tenant)
  {
    RunOwnChannel(EMPTY_WORLD, run, c);
  }

  // ----- Copies of the last load are believable -----

  /** The copy of the load answered last agrees with the results, unless a result through it waits for its publish. */
  ghost predicate CurrentInv(w: World, c: CheckId) {
    var answered := w.clock.loads.answered;
    && (forall p | p in w.probes && w.probes[p].copy.check == c && (w.probes[p].Requesting? || !w.probes[p].persisted) ::
          Some(w.probes[p].copy.load) == answered)
    && (forall p | Concerns(w, p, c) && !w.probes[p].persisted ::
          Has(w.docs, w.probes[p].copy) && w.probes[p].prevOk == OkOf(At(w.docs, w.probes[p].copy).lastResult))
    && (answered.Some? && Has(w.docs, Copy(answered.value, c))
        && (forall p | Pending(w, p, c) :: w.probes[p].copy != Copy(answered.value, c)) ==>
          Agrees(OkOf(At(w.docs, Copy(answered.value, c)).lastResult), ResultsFor(w.results, c)))
  }

  lemma CurrentIsBelieved(w: World, step: Step, c: CheckId)
    requires CanStep(w, step) && NoneLost(w, step, c) && CurrentInv(w, c) && Lined(w, c)
    ensures Believed(w, step, c)
  {
    if step.Persist? && w.probes[step.p].copy.check == c {
      assert Concerns(w, step.p, c);
      assert w.probes[step.p].copy == Copy(w.clock.loads.answered.value, c);
      assert forall p :: !Pending(w, p, c);
    }
  }

  lemma TickCurrent(w: World, k: T.Tick, c: CheckId)
    requires CanStep(w, Timer(k)) && LastLoadOnly(w, Timer(k), c) && CurrentInv(w, c) && Stored(w, c)
    ensures CurrentInv(After(w, Timer(k)), c)
  {
    var w' := After(w, Timer(k));
    assert w'.probes == w.probes && w'.results == w.results;
    assert forall p :: Pending(w', p, c) <==> Pending(w, p, c);
    if !k.ReadDb? {
      assert w'.clock.loads.answered == w.clock.loads.answered && w'.docs == w.docs;
    }
  }

  lemma PersistCurrent(w: World, step: Step, c: CheckId)
    requires CanStep(w, step) && step.Persist? && CurrentInv(w, c) && Lined(w, c)
    ensures CurrentInv(After(w, step), c)
  {
    var w' := After(w, step);
    if w.probes[step.p].copy.check == c {
      OwnPersist(w, step, c);
      assert Pending(w', step.p, c);
    } else {
      QuietPending(w, step, c);
      QuietResults(w, step, c);
    }
  }

  lemma LostCurrent(w: World, step: Step, c: CheckId)
    requires CanStep(w, step) && step.PersistLost? && NoneLost(w, step, c) && CurrentInv(w, c) && Lined(w, c)
    ensures CurrentInv(After(w, step), c)
  {
    if w.probes[step.p].copy.check == c {
      OwnLost(w, step, c);
      assert Concerns(w, step.p, c);
    } else {
      QuietPending(w, step, c);
      QuietResults(w, step, c);
    }
  }

  lemma RememberedIs(docs: map<LoadId, Checks>, copy: Copy, last: LastResult)
    requires Has(docs, copy)
    ensures var docs' := Remembered(docs, copy, last);
            && (forall other: Copy :: Has(docs, other) <==> Has(docs', other))
            && (forall other: Copy | Has(docs, other) && other != copy :: At(docs', other) == At(docs, other))
            && At(docs', copy) == At(docs, copy).(lastResult := Some(last))
  {
  }

  lemma PublishCurrent(w: World, step: Step, c: CheckId)
    requires CanStep(w, step) && step.Publish? && CurrentInv(w, c) && Lined(w, c)
    ensures CurrentInv(After(w, step), c)
  {
    var w' := After(w, step);
    var probe := w.probes[step.p];
    RememberedIs(w.docs, probe.copy, probe.last);
    if probe.copy.check == c {
      OwnPublish(w, step, c);
      assert Pending(w, step.p, c);
    } else {
      QuietPending(w, step, c);
    }
  }

  lemma OtherCurrent(w: World, step: Step, c: CheckId)
    requires CanStep(w, step) && LastLoadOnly(w, step, c) && CurrentInv(w, c)
    requires step.Engine? || step.Request? || step.Handle? || step.PersistFails?
    ensures CurrentInv(After(w, step), c)
  {
    var w' := After(w, step);
    assert w'.results == w.results && w'.docs == w.docs && w'.clock == w.clock;
    assert forall p :: Pending(w', p, c) <==> Pending(w, p, c);
    assert forall p | Pending(w, p, c) :: w'.probes[p] == w.probes[p];
  }

  lemma StepCurrent(w: World, step: Step, c: CheckId)
    requires CanStep(w, step) && LastLoadOnly(w, step, c) && CurrentInv(w, c) && Lined(w, c) && Stored(w, c)
    ensures CurrentInv(After(w, step), c)
  {
    match step
    case Timer(k) => TickCurrent(w, k, c);
    case Persist(_) => PersistCurrent(w, step, c);
    case PersistLost(_) => LostCurrent(w, step, c);
    case Publish(_, _) => PublishCurrent(w, step, c);
    case _ => OtherCurrent(w, step, c);
  }

  lemma {:induction false} LastLoadFrom(w: World, run: seq<Step>, c: CheckId)
    requires Possible(w, run) && AloneRun(w, run, c) && LastLoadRun(w, run, c) && StreamInv(w, c) && CurrentInv(w, c)
    ensures BelievedRun(w, run, c)
    decreases |run|
  {
    if run != [] {
      CurrentIsBelieved(w, run[0], c);
      StepStreams(w, run[0], c);
      StepCurrent(w, run[0], c);
      LastLoadFrom(After(w, run[0]), run[1..], c);
    }
  }

  /** Probing only through the copies of the load answered last is enough. */
  lemma {:induction false} LastLoadCopiesAreBelieved(run: seq<Step>, c: CheckId)
    requires Possible(EMPTY_WORLD, run) && AloneRun(EMPTY_WORLD, run, c) && LastLoadRun(EMPTY_WORLD, run, c)
    ensures BelievedRun(EMPTY_WORLD, run, c)
  {
    LastLoadFrom(EMPTY_WORLD, run, c);
  }

  /** A write of a result changes no check's schedule. */
  lemma StepKeepsOrder(w: World, step: Step, c: CheckId)
    requires CanStep(w, step) && CalmFor(w, step, c) && T.Orderly(w.clock)
    ensures LastLoadOnly(w, step, c) && T.Orderly(After(w, step).clock)
  {
    if step.Timer? {
      T.TickOrderly(w.clock, step.k);
    }
  }

  lemma {:induction false} CalmFrom(w: World, run: seq<Step>, c: CheckId)
    requires Possible(w, run) && CalmRun(w, run, c) && T.Orderly(w.clock)
    ensures LastLoadRun(w, run, c)
    decreases |run|
  {
    if run != [] {
      StepKeepsOrder(w, run[0], c);
      CalmFrom(After(w, run[0]), run[1..], c);
    }
  }

  /** When reloads and stops wait for the last reload to settle, only its copies ever probe. */
  lemma {:induction false} CalmReloadsProbeTheLastLoad(run: seq<Step>, c: CheckId)
    requires Possible(EMPTY_WORLD, run) && CalmRun(EMPTY_WORLD, run, c)
    ensures LastLoadRun(EMPTY_WORLD, run, c)
  {
    CalmFrom(EMPTY_WORLD, run, c);
  }
}

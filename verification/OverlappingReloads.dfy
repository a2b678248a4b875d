/**
 Runs that show what the hypotheses of `TransitionStream` and `EndToEnd` are for: overlapping reloads leave two timers
 and two copies for one check (src/scheduler.ts:147-194), the answer to a write may be lost, and an operator may resolve
 what still fails or write over a resolution by a stale update.
 Check 5 belongs to tenant 1 throughout.
 */
module OverlappingReloads {
  import opened Common
  import opened IncidentModel
  import opened IncidentEngine
  import opened CheckModel
  import opened ProbeWorld
  import opened TransitionStream
  import opened EndToEnd
  import T = Timers

  const DOWN: LastResult := LastResult(500, 10, 0, false)
  const UP: LastResult := LastResult(200, 10, 0, true)
  const NEW_DOC: Checks := map[5 := NewCheck(1, T.API)]

  /** Loads are answered with no probe of `c` in flight. */
  ghost predicate LoadsBetweenProbes(w: World, run: seq<Step>, c: CheckId)
    requires Possible(w, run)
    decreases |run|
  {
    run != [] ==>
      (run[0].Timer? && run[0].k.ReadDb? ==> NoneInFlight(w, c)) && LoadsBetweenProbes(After(w, run[0]), run[1..], c)
  }

  /** A run from the start, careful about check 5. */
  ghost predicate Goes(run: seq<Step>) {
    Possible(EMPTY_WORLD, run) && CarefulRun(EMPTY_WORLD, run, 5)
  }

  ghost predicate GoesBetweenProbes(run: seq<Step>) {
    Goes(run) && LoadsBetweenProbes(EMPTY_WORLD, run, 5)
  }

  ghost predicate GoesBelieved(run: seq<Step>) {
    Goes(run) && BelievedRun(EMPTY_WORLD, run, 5)
  }

  /** The run misses no change of the verdict. */
  ghost predicate GoesHarmless(run: seq<Step>) {
    Goes(run) && HarmlessRun(EMPTY_WORLD, run, 5, true)
  }

  ghost function End(run: seq<Step>): World
    requires Goes(run)
  {
    Outcome(EMPTY_WORLD, run)
  }

  lemma {:induction false} TakeFrom(w: World, run: seq<Step>, step: Step)
    requires Possible(w, run) && CarefulRun(w, run, 5)
    requires CanStep(Outcome(w, run), step) && Careful(Outcome(w, run), step, 5)
    ensures Possible(w, run + [step]) && CarefulRun(w, run + [step], 5)
    ensures Outcome(w, run + [step]) == After(Outcome(w, run), step)
    ensures LoadsBetweenProbes(w, run, 5) && (step.Timer? && step.k.ReadDb? ==> NoneInFlight(Outcome(w, run), 5)) ==>
              LoadsBetweenProbes(w, run + [step], 5)
    ensures BelievedRun(w, run, 5) && Believed(Outcome(w, run), step, 5) ==> BelievedRun(w, run + [step], 5)
    ensures HarmlessRun(w, run, 5, true) && Harmless(Outcome(w, run), step, 5, true) ==>
              HarmlessRun(w, run + [step], 5, true)
    decreases |run|
  {
    if run == [] {
      assert [step][1..] == [];
    } else {
      assert (run + [step])[1..] == run[1..] + [step];
      TakeFrom(After(w, run[0]), run[1..], step);
    }
  }

  /** The run with one more careful step. */
  lemma {:induction false} Take(run: seq<Step>, step: Step) returns (longer: seq<Step>)
    requires Goes(run) && CanStep(End(run), step) && Careful(End(run), step, 5)
    ensures longer == run + [step] && Goes(longer) && End(longer) == After(End(run), step)
    ensures GoesBetweenProbes(run) && (step.Timer? && step.k.ReadDb? ==> NoneInFlight(End(run), 5)) ==>
              GoesBetweenProbes(longer)
    ensures GoesBelieved(run) && Believed(End(run), step, 5) ==> GoesBelieved(longer)
    ensures GoesHarmless(run) && Harmless(End(run), step, 5, true) ==> GoesHarmless(longer)
  {
    TakeFrom(EMPTY_WORLD, run, step);
    longer := run + [step];
  }

  lemma {:induction false} TakeTimer(run: seq<Step>, k: T.Tick) returns (longer: seq<Step>)
    requires Goes(run) && T.CanTick(End(run).clock, k) && !k.Crud?
    ensures Goes(longer) && (GoesBelieved(run) ==> GoesBelieved(longer))
    ensures GoesBetweenProbes(run) && (k.ReadDb? ==> NoneInFlight(End(run), 5)) ==> GoesBetweenProbes(longer)
    ensures var w := End(run);
            End(longer) == w.(clock := T.After(w.clock, k),
                              docs := if k.ReadDb? then w.docs[k.load := Loaded(w.clock.checks)] else w.docs)
  {
    longer := Take(run, Timer(k));
  }

  lemma {:induction false} TakeEngine(run: seq<Step>, a: Action) returns (longer: seq<Step>)
    requires Goes(run) && Enabled(End(run).engine, a) && !a.Call? && !a.Fail? && !Reopens(End(run).engine, a, 5)
    ensures Goes(longer) && (GoesBetweenProbes(run) ==> GoesBetweenProbes(longer))
    ensures GoesBelieved(run) ==> GoesBelieved(longer)
    ensures End(longer) == End(run).(engine := Next(End(run).engine, a))
  {
    longer := Take(run, Engine(a));
  }

  /** A whole probe through the copy of interval `h`. */
  lemma {:induction false} Probe(run: seq<Step>, h: T.HandleId, last: LastResult) returns (longer: seq<Step>)
    requires Goes(run)
    requires var w := End(run);
             && w.probes == map[] && 0 !in w.engine.ops && HandlersQuiet(w.engine, 5)
             && h in w.clock.alarms.live && w.clock.alarms.live[h].check == 5 && Has(w.docs, w.clock.alarms.live[h])
    ensures Goes(longer) && (GoesBetweenProbes(run) ==> GoesBetweenProbes(longer))
    ensures GoesBelieved(run)
            && Agrees(OkOf(At(End(run).docs, End(run).clock.alarms.live[h]).lastResult), ResultsFor(End(run).results, 5)) ==>
              GoesBelieved(longer)
    ensures GoesHarmless(run) && last.ok == Passing(ResultsFor(End(run).results, 5)) ==> GoesHarmless(longer)
    ensures var w := End(run);
            var copy := w.clock.alarms.live[h];
            var e := EventFor(Handling(copy, At(w.docs, copy).tenant, OkOf(At(w.docs, copy).lastResult), last, true));
            End(longer) == w.(docs := Remembered(w.docs, copy, last),
                              clock := w.clock.(checks := Recorded(w.clock.checks, 5, last)),
                              results := w.results + [(5, last.ok)],
                              events := if e.Some? then w.events + [e.value] else w.events,
                              engine := Announced(w.engine, e, 0))
  {
    longer := Take(run, Request(0, h));
    longer := Take(longer, Handle(0, last));
    longer := Take(longer, Persist(0));
    ResultsAppend(End(run).results, (5, last.ok), 5);
    longer := Take(longer, Publish(0, 0));
    assert End(longer).probes == map[];
  }

  /** The engine with nothing in flight. */
  predicate Holds(s: State, m: Incidents) {
    s.incidents == m && s.ops == map[]
  }

  /** The rest of the world is as it was. */
  predicate OnlyEngine(w: World, w': World) {
    w' == w.(engine := w'.engine)
  }

  /** After its write a handler announces and logs. */
  lemma {:induction false} HandlerFinishes(run: seq<Step>) returns (longer: seq<Step>)
    requires Goes(run) && End(run).engine.ops.Keys == {0} && End(run).engine.ops[0].Replying?
    ensures Goes(longer) && (GoesBetweenProbes(run) ==> GoesBetweenProbes(longer)) && OnlyEngine(End(run), End(longer))
    ensures GoesBelieved(run) ==> GoesBelieved(longer)
    ensures Holds(End(longer).engine, End(run).engine.incidents)
  {
    longer := TakeEngine(run, Resume(0, 0));
    longer := TakeEngine(longer, Log(0));
    assert End(longer).engine.ops == map[];
  }

  /** A failure handler does its work: it opens incident `id`. */
  lemma {:induction false} HandlerOpens(run: seq<Step>, id: IncidentId) returns (longer: seq<Step>)
    requires Goes(run) && End(run).probes == map[] && id !in End(run).engine.incidents
    requires End(run).engine.ops == map[0 := Finding(OpenIncident(1, 5))]
    requires FindOpenAnswer(End(run).engine.incidents, 1, 5, None)
    ensures Goes(longer) && (GoesBetweenProbes(run) ==> GoesBetweenProbes(longer)) && OnlyEngine(End(run), End(longer))
    ensures GoesBelieved(run) ==> GoesBelieved(longer)
    ensures Holds(End(longer).engine, End(run).engine.incidents[id := NewIncident(1, 5, 0)])
  {
    var m := End(run).engine.incidents;
    longer := TakeEngine(run, Read(0, None));
    longer := TakeEngine(longer, Write(0, id, 0));
    assert End(longer).engine.incidents == m[id := NewIncident(1, 5, 0)] && End(longer).engine.ops.Keys == {0};
    assert End(longer).engine.ops[0].Replying?;
    longer := HandlerFinishes(longer);
  }

  /** A recovery handler does its work: it resolves incident `id`. */
  lemma {:induction false} HandlerResolves(run: seq<Step>, id: IncidentId) returns (longer: seq<Step>)
    requires Goes(run) && End(run).probes == map[]
    requires End(run).engine.ops == map[0 := Finding(ResolveIncident(1, 5))]
    requires End(run).engine.incidents == map[id := NewIncident(1, 5, 0)]
    ensures Goes(longer) && (GoesBetweenProbes(run) ==> GoesBetweenProbes(longer)) && OnlyEngine(End(run), End(longer))
    ensures GoesBelieved(run) ==> GoesBelieved(longer)
    ensures Holds(End(longer).engine, map[id := NewIncident(1, 5, 0).(status := Resolved, resolvedAt := Some(0))])
  {
    longer := TakeEngine(run, Read(0, Some(id)));
    assert End(longer).engine.ops == map[0 := Patching(ResolveIncident(1, 5), id, Open)];
    longer := TakeEngine(longer, Write(0, id + 1, 0));
    assert End(longer).engine.ops.Keys == {0} && End(longer).engine.ops[0].Replying?;
    longer := HandlerFinishes(longer);
  }

  // ----- Two copies of one check -----

  /** The check is created, and the scheduler starts with its signal still outstanding. */
  lemma FirstLoadBegins() returns (run: seq<Step>)
    ensures GoesBetweenProbes(run) && GoesBelieved(run)
    ensures var w := End(run);
            && w == EMPTY_WORLD.(clock := w.clock)
            && w.clock.alarms == T.NO_ALARMS && w.clock.signals == 1 && w.clock.subscribed
            && w.clock.loads == T.Loads(map[0 := None], {0}, None, false)
            && T.EnabledChecks(w.clock.checks) == {5} && Loaded(w.clock.checks) == NEW_DOC
            && 5 in w.clock.checks && w.clock.checks[5].tenant == 1
  {
    run := Take([], Timer(T.Crud(CreateCheck(1, T.API), 5)));
    run := TakeTimer(run, T.Start(0));
    assert End(run).clock.alarms.live == map[];
  }

  /** Two loads, begun one after the other, are both answered. */
  lemma TwoLoads() returns (run: seq<Step>)
    ensures GoesBetweenProbes(run) && GoesBelieved(run)
    ensures var w := End(run);
            && w.engine == EMPTY_STATE && w.probes == map[] && w.results == [] && w.events == []
            && w.docs == map[0 := NEW_DOC, 1 := NEW_DOC]
            && w.clock.loads.waiting == map[0 := Some({5}), 1 := Some({5})] && w.clock.loads.answered == Some(1)
            && w.clock.alarms == T.NO_ALARMS && 5 in w.clock.checks && w.clock.checks[5].tenant == 1
  {
    run := FirstLoadBegins();
    run := TakeTimer(run, T.Signal(1));
    assert End(run).clock.alarms.live == map[];
    run := TakeTimer(run, T.ReadDb(0));
    run := TakeTimer(run, T.ReadDb(1));
  }

  /** The world in which check 5 is probed by interval 21 through copy 0 and by interval 22 through copy 1. */
  ghost predicate TwoTimers(w: World) {
    && w.probes == map[] && 5 in w.clock.checks && w.clock.checks[5].tenant == 1
    && w.clock.alarms.live == map[21 := Copy(0, 5), 22 := Copy(1, 5)] && w.clock.loads.answered == Some(1)
  }

  /** What the two copies remember. */
  ghost predicate Remember(w: World, a: Option<bool>, b: Option<bool>) {
    && Has(w.docs, Copy(0, 5)) && Has(w.docs, Copy(1, 5))
    && At(w.docs, Copy(0, 5)).tenant == 1 && At(w.docs, Copy(1, 5)).tenant == 1
    && OkOf(At(w.docs, Copy(0, 5)).lastResult) == a && OkOf(At(w.docs, Copy(1, 5)).lastResult) == b
  }

  const SECOND: map<T.TimeoutId, CheckId> := map[8 := 5]

  /** Both loads schedule the check. */
  lemma TwoTimeouts() returns (run: seq<Step>)
    ensures GoesBetweenProbes(run) && GoesBelieved(run)
    ensures var w := End(run);
            && w.engine == EMPTY_STATE && w.probes == map[] && w.results == [] && w.events == []
            && w.docs == map[0 := NEW_DOC, 1 := NEW_DOC] && w.clock.loads.answered == Some(1)
            && w.clock.alarms == T.Alarms(map[], map[], map[7 := Copy(0, 5), 8 := Copy(1, 5)])
            && 5 in w.clock.checks && w.clock.checks[5].tenant == 1
  {
    run := TwoLoads();
    assert T.JITTER[7] == 5 && T.ChecksOf(T.JITTER) == {5} && SECOND[8] == 5 && T.ChecksOf(SECOND) == {5};
    run := TakeTimer(run, T.Schedule(0, T.JITTER));
    assert End(run).clock.alarms == T.Alarms(map[], map[], map[7 := Copy(0, 5)]);
    run := TakeTimer(run, T.Schedule(1, SECOND));
    assert End(run).clock.alarms == T.Alarms(map[], map[], map[7 := Copy(0, 5), 8 := Copy(1, 5)]);
  }

  /** Both timeouts fire. */
  lemma OverlappingReloadsLeaveTwoTimers() returns (run: seq<Step>)
    ensures GoesBetweenProbes(run) && GoesBelieved(run)
    ensures var w := End(run);
            TwoTimers(w) && Remember(w, None, None) && w.engine == EMPTY_STATE && w.results == [] && w.events == []
  {
    run := TwoTimeouts();
    run := TakeTimer(run, T.Fire(7, 21));
    assert End(run).clock.alarms == T.Alarms(map[5 := 21], map[21 := Copy(0, 5)], map[8 := Copy(1, 5)]);
    run := TakeTimer(run, T.Fire(8, 22));
    assert End(run).clock.alarms.live == map[21 := Copy(0, 5), 22 := Copy(1, 5)];
  }

  /** The first timer sees the check fail, and the incident is opened. */
  lemma FirstTimerFails() returns (run: seq<Step>)
    ensures GoesBetweenProbes(run) && GoesBelieved(run)
    ensures var w := End(run);
            && TwoTimers(w) && Remember(w, Some(false), None) && Holds(w.engine, map[7 := NewIncident(1, 5, 0)])
            && w.results == [(5, false)] && w.events == [Event(1, 5, false)]
            && OkOf(w.clock.checks[5].lastResult) == Some(false)
  {
    run := OverlappingReloadsLeaveTwoTimers();
    assert ResultsFor([], 5) == [];
    RememberedIs(End(run).docs, Copy(0, 5), DOWN);
    run := Probe(run, 21, DOWN);
    run := HandlerOpens(run, 7);
  }

  lemma {:induction false} BelievedIsHarmless(run: seq<Step>)
    requires GoesBelieved(run)
    ensures GoesHarmless(run)
  {
    CarefulIsAlone(EMPTY_WORLD, run, 5);
    BelievedMissesNothing(EMPTY_WORLD, run, 5, true);
  }

  lemma TwoResults()
    ensures ResultsFor([(5, false), (5, false)], 5) == [false, false]
  {
    ResultsAppend([], (5, false), 5);
    assert [] + [(5, false)] == [(5, false)];
    ResultsAppend([(5, false)], (5, false), 5);
    assert [(5, false)] + [(5, false)] == [(5, false), (5, false)];
  }

  lemma TwoEvents()
    ensures EventsFor([Event(1, 5, false), Event(1, 5, false)], 5) == [false, false]
  {
    EventsAppend([], Event(1, 5, false), 5);
    assert [] + [Event(1, 5, false)] == [Event(1, 5, false)];
    EventsAppend([Event(1, 5, false)], Event(1, 5, false), 5);
    assert [Event(1, 5, false)] + [Event(1, 5, false)] == [Event(1, 5, false), Event(1, 5, false)];
  }

  lemma OneChange()
    ensures ChangePoints([false, false]) == [false]
  {
    ChangePointsAppend([], false);
    assert [] + [false] == [false];
    ChangePointsAppend([false], false);
    assert [false] + [false] == [false, false];
  }

  /**
   The second timer sees the same failure through its own copy and announces it again: no probes overlapped. The
   incident does not suffer, since the verdict has not changed.
   */
  lemma OldCopyRepeatsFailure() returns (run: seq<Step>)
    ensures GoesBetweenProbes(run) && GoesHarmless(run) && AloneRun(EMPTY_WORLD, run, 5)
    ensures !BelievedRun(EMPTY_WORLD, run, 5)
    ensures ResultsFor(End(run).results, 5) == [false, false] && EventsFor(End(run).events, 5) == [false, false]
    ensures Flushed(End(run), 5) && !Exact(End(run), 5)
  {
    run := FirstTimerFails();
    BelievedIsHarmless(run);
    ResultsAppend([], (5, false), 5);
    run := Probe(run, 22, DOWN);
    assert End(run).results == [(5, false), (5, false)];
    assert End(run).events == [Event(1, 5, false), Event(1, 5, false)];
    assert forall p :: !Pending(End(run), p, 5);
    RepeatIsNotExact(run);
  }

  lemma {:induction false} RepeatIsNotExact(run: seq<Step>)
    requires Goes(run) && Flushed(End(run), 5)
    requires End(run).results == [(5, false), (5, false)]
    requires End(run).events == [Event(1, 5, false), Event(1, 5, false)]
    ensures AloneRun(EMPTY_WORLD, run, 5) && !BelievedRun(EMPTY_WORLD, run, 5) && !Exact(End(run), 5)
    ensures ResultsFor(End(run).results, 5) == [false, false] && EventsFor(End(run).events, 5) == [false, false]
  {
    TwoResults();
    TwoEvents();
    OneChange();
    CarefulIsAlone(EMPTY_WORLD, run, 5);
    if BelievedRun(EMPTY_WORLD, run, 5) {
      EventsAreChangePoints(run, 5);
      assert false;
    }
  }

  /** The first timer sees the check recover, and the incident is resolved. */
  lemma FirstTimerRecovers() returns (run: seq<Step>)
    ensures GoesBetweenProbes(run)
    ensures var w := End(run);
            && TwoTimers(w) && Remember(w, Some(true), None)
            && Holds(w.engine, map[7 := NewIncident(1, 5, 0).(status := Resolved, resolvedAt := Some(0))])
  {
    run := FirstTimerFails();
    RememberedIs(End(run).docs, Copy(0, 5), UP);
    run := Probe(run, 21, UP);
    run := HandlerResolves(run, 7);
  }

  /** The second timer sees it fail, and a new incident is opened. */
  lemma SecondTimerFails() returns (run: seq<Step>)
    ensures GoesBetweenProbes(run)
    ensures var w := End(run);
            && TwoTimers(w) && Remember(w, Some(true), Some(false)) && w.engine.ops == map[]
            && 8 in w.engine.incidents && w.engine.incidents[8] == NewIncident(1, 5, 0)
  {
    run := FirstTimerRecovers();
    RememberedIs(End(run).docs, Copy(1, 5), DOWN);
    run := Probe(run, 22, DOWN);
    run := HandlerOpens(run, 8);
  }

  /** The first timer sees it recover, but its copy has never heard of the failure: the incident stays open. */
  lemma OldCopyLosesRecovery() returns (run: seq<Step>)
    ensures GoesBetweenProbes(run)
    ensures var w := End(run);
            && 5 in w.clock.checks && AtRest(w, 5)
            && OkOf(w.clock.checks[5].lastResult) == Some(true) && HasActive(w.engine.incidents, 1, 5)
    ensures !IncidentTells(End(run), 5, false)
  {
    run := SecondTimerFails();
    run := Probe(run, 21, UP);
    assert ActiveFor(End(run).engine.incidents, 1, 5, 8);
  }

  /** A recovery whose write takes effect, but is answered with an error, is not heard of either. */
  lemma LostAnswerLosesRecovery() returns (run: seq<Step>)
    ensures GoesBetweenProbes(run)
    ensures var w := End(run);
            && 5 in w.clock.checks && AtRest(w, 5)
            && OkOf(w.clock.checks[5].lastResult) == Some(true) && HasActive(w.engine.incidents, 1, 5)
    ensures !IncidentTells(End(run), 5, false)
  {
    run := FirstTimerFails();
    run := Take(run, Request(0, 21));
    run := Take(run, Handle(0, UP));
    run := Take(run, PersistLost(0));
    assert End(run).probes == map[];
    assert ActiveFor(End(run).engine.incidents, 1, 5, 7);
  }

  // ----- A load answered with a probe in flight -----

  /** The only load schedules the check. */
  lemma OneTimeout() returns (run: seq<Step>)
    ensures Goes(run)
    ensures var w := End(run);
            && w == EMPTY_WORLD.(clock := w.clock, docs := map[0 := NEW_DOC])
            && w.clock.alarms == T.Alarms(map[], map[], map[7 := Copy(0, 5)])
            && w.clock.signals == 1 && w.clock.subscribed
            && w.clock.loads == T.Loads(map[], {0}, Some(0), false)
            && T.EnabledChecks(w.clock.checks) == {5} && Loaded(w.clock.checks) == NEW_DOC
  {
    run := FirstLoadBegins();
    run := TakeTimer(run, T.ReadDb(0));
    assert T.JITTER[7] == 5 && T.ChecksOf(T.JITTER) == {5};
    run := TakeTimer(run, T.Schedule(0, T.JITTER));
    assert End(run).clock.alarms == T.Alarms(map[], map[], map[7 := Copy(0, 5)]);
  }

  /** One timer probes through its copy. */
  lemma OneTimer() returns (run: seq<Step>)
    ensures Goes(run)
    ensures var w := End(run);
            && w == EMPTY_WORLD.(clock := w.clock, docs := map[0 := NEW_DOC])
            && w.clock.alarms == T.Alarms(map[5 := 21], map[21 := Copy(0, 5)], map[])
            && w.clock.signals == 1 && w.clock.subscribed
            && w.clock.loads == T.Loads(map[], {0}, Some(0), false)
            && T.EnabledChecks(w.clock.checks) == {5} && Loaded(w.clock.checks) == NEW_DOC
  {
    run := OneTimeout();
    run := TakeTimer(run, T.Fire(7, 21));
  }

  /** Its failing result waits for its write while the next load is answered. */
  lemma LoadAnsweredInFlight() returns (run: seq<Step>)
    ensures Goes(run)
    ensures var w := End(run);
            && w.docs == map[0 := NEW_DOC, 1 := NEW_DOC] && w.engine == EMPTY_STATE && w.events == []
            && w.probes == map[0 := Handling(Copy(0, 5), 1, None, DOWN, false)]
            && w.clock.alarms == T.NO_ALARMS && w.clock.loads.waiting == map[1 := Some({5})]
  {
    run := OneTimer();
    run := Take(run, Request(0, 21));
    run := Take(run, Handle(0, DOWN));
    assert End(run).clock.alarms.timers[5] == 21;
    run := TakeTimer(run, T.Signal(1));
    assert End(run).clock.alarms == T.NO_ALARMS;
    run := TakeTimer(run, T.ReadDb(1));
  }

  /** The failure is announced, and the incident opened. */
  lemma OldCopyPublishes() returns (run: seq<Step>)
    ensures Goes(run)
    ensures var w := End(run);
            && Has(w.docs, Copy(1, 5)) && At(w.docs, Copy(1, 5)) == NewCheck(1, T.API)
            && w.events == [Event(1, 5, false)] && w.probes == map[] && w.engine.ops == map[]
            && w.clock.alarms == T.NO_ALARMS && w.clock.loads.waiting == map[1 := Some({5})]
  {
    run := LoadAnsweredInFlight();
    run := Take(run, Persist(0));
    run := Take(run, Publish(0, 0));
    RememberedIs(map[0 := NEW_DOC, 1 := NEW_DOC], Copy(0, 5), DOWN);
    assert End(run).probes == map[] && End(run).events == [Event(1, 5, false)];
    run := HandlerOpens(run, 7);
  }

  /** The next load starts its timer. */
  lemma NextTimerStarts() returns (run: seq<Step>)
    ensures Goes(run)
    ensures var w := End(run);
            && w.clock.alarms.live == map[22 := Copy(1, 5)]
            && Has(w.docs, Copy(1, 5)) && At(w.docs, Copy(1, 5)) == NewCheck(1, T.API)
            && w.events == [Event(1, 5, false)] && w.probes == map[] && w.engine.ops == map[]
  {
    run := OldCopyPublishes();
    assert T.JITTER[7] == 5 && T.ChecksOf(T.JITTER) == {5};
    run := TakeTimer(run, T.Schedule(1, T.JITTER));
    assert End(run).clock.alarms == T.Alarms(map[], map[], map[7 := Copy(1, 5)]);
    run := TakeTimer(run, T.Fire(7, 22));
  }

  /** Its copy knows nothing of that failure and announces the next one again. */
  lemma ReloadInFlightRepeatsFailure() returns (run: seq<Step>)
    ensures Goes(run) && EventsFor(End(run).events, 5) == [false, false]
  {
    run := NextTimerStarts();
    run := Probe(run, 22, DOWN);
    assert End(run).events == [Event(1, 5, false), Event(1, 5, false)];
    TwoEvents();
  }

  // ----- Resolving by hand -----

  /** A careful run ends at rest with a failing check and its one open incident. */
  lemma FailureOpensAnIncident() returns (run: seq<Step>)
    ensures GoesBelieved(run)
    ensures var w := End(run);
            && 5 in w.clock.checks && w.clock.checks[5].tenant == 1 && AtRest(w, 5) && w.probes == map[]
            && OkOf(w.clock.checks[5].lastResult) == Some(false)
            && Holds(w.engine, map[7 := NewIncident(1, 5, 0)]) && HasActive(w.engine.incidents, 1, 5)
  {
    run := FirstTimerFails();
    assert ActiveFor(End(run).engine.incidents, 1, 5, 7);
  }

  const BY_HAND: IncidentEngine.Request := UpdateIncident(1, 7, Some(Resolved), None, 3)

  /** The operator's request is read. */
  lemma {:induction false} OperatorReads(run: seq<Step>) returns (longer: seq<Step>)
    requires GoesBelieved(run) && Holds(End(run).engine, map[7 := NewIncident(1, 5, 0)])
    ensures GoesBelieved(longer) && OnlyEngine(End(run), End(longer))
    ensures End(longer).engine.ops == map[1 := Patching(BY_HAND, 7, Open)]
    ensures End(longer).engine.incidents == End(run).engine.incidents
  {
    longer := Take(run, Engine(Call(1, BY_HAND)));
    longer := TakeEngine(longer, Read(1, Some(7)));
  }

  /** And written. */
  lemma {:induction false} OperatorResolves(run: seq<Step>) returns (longer: seq<Step>)
    requires GoesBelieved(run) && Holds(End(run).engine, map[7 := NewIncident(1, 5, 0)])
    ensures GoesBelieved(longer) && OnlyEngine(End(run), End(longer))
    ensures End(longer).engine.ops.Keys == {1} && End(longer).engine.ops[1].Replying?
    ensures End(longer).engine.incidents.Keys == {7} && End(longer).engine.incidents[7].status == Resolved
  {
    longer := OperatorReads(run);
    longer := TakeEngine(longer, Write(1, 8, 2));
  }

  /** An operator resolves it by hand while the check still fails: at rest, it fails without an active incident. */
  lemma ManualResolveBreaksTheConverse() returns (run: seq<Step>)
    ensures GoesBelieved(run) && !LeftToProbesRun(EMPTY_WORLD, run, 5)
    ensures var w := End(run);
            && 5 in w.clock.checks && w.clock.checks[5].tenant == 1 && AtRest(w, 5)
            && OkOf(w.clock.checks[5].lastResult) == Some(false) && !HasActive(w.engine.incidents, 1, 5)
  {
    run := FailureOpensAnIncident();
    run := OperatorResolves(run);
    assert HandlersQuiet(End(run).engine, 5) && NoneHandled(End(run), 5);
    BelievedKeepsIncidentsTrue(run, 5);
  }

  // ----- A stale update -----

  const STALE: IncidentEngine.Request := UpdateIncident(1, 7, Some(Monitoring), None, 3)

  /** An operator's update has read the incident while it was open. */
  lemma StaleRead() returns (run: seq<Step>)
    ensures Goes(run)
    ensures var w := End(run);
            && TwoTimers(w) && Remember(w, Some(false), None)
            && w.engine.ops == map[1 := Patching(STALE, 7, Open)]
            && w.engine.incidents == map[7 := NewIncident(1, 5, 0)]
  {
    run := FirstTimerFails();
    run := Take(run, Engine(Call(1, STALE)));
    run := TakeEngine(run, Read(1, Some(7)));
  }

  /** Meanwhile the check recovers. */
  lemma RecoversMeanwhile() returns (run: seq<Step>)
    ensures Goes(run)
    ensures var w := End(run);
            && w.probes == map[] && 5 in w.clock.checks && w.clock.checks[5].tenant == 1
            && OkOf(w.clock.checks[5].lastResult) == Some(true)
            && w.engine.ops == map[0 := Finding(ResolveIncident(1, 5)), 1 := Patching(STALE, 7, Open)]
            && w.engine.incidents == map[7 := NewIncident(1, 5, 0)]
  {
    run := StaleRead();
    run := Probe(run, 21, UP);
  }

  /** Its handler finds the incident. */
  lemma FoundMeanwhile() returns (run: seq<Step>)
    ensures Goes(run)
    ensures var w := End(run);
            && w.probes == map[] && 5 in w.clock.checks && w.clock.checks[5].tenant == 1
            && OkOf(w.clock.checks[5].lastResult) == Some(true)
            && w.engine.ops == map[0 := Patching(ResolveIncident(1, 5), 7, Open), 1 := Patching(STALE, 7, Open)]
            && w.engine.incidents == map[7 := NewIncident(1, 5, 0)]
  {
    run := RecoversMeanwhile();
    run := TakeEngine(run, Read(0, Some(7)));
  }

  /** And resolves it. */
  lemma ResolvedMeanwhile() returns (run: seq<Step>)
    ensures Goes(run)
    ensures var w := End(run);
            && w.probes == map[] && 5 in w.clock.checks && w.clock.checks[5].tenant == 1
            && OkOf(w.clock.checks[5].lastResult) == Some(true)
            && w.engine.ops.Keys == {0, 1} && w.engine.ops[0].Replying? && w.engine.ops[1] == Patching(STALE, 7, Open)
            && w.engine.incidents == map[7 := NewIncident(1, 5, 0).(status := Resolved, resolvedAt := Some(0))]
  {
    run := FoundMeanwhile();
    run := TakeEngine(run, Write(0, 8, 0));
  }

  /** The one write a careful run leaves out: it reopens the incident the handler has just resolved. */
  lemma StaleUpdateReopens() returns (run: seq<Step>, last: Step)
    ensures Goes(run) && CanStep(End(run), last) && last.Engine? && Reopens(End(run).engine, last.a, 5)
    ensures !IncidentTells(After(End(run), last), 5, false)
  {
    run := ResolvedMeanwhile();
    last := Engine(Write(1, 8, 1));
    var w := After(End(run), last);
    assert ActiveFor(w.engine.incidents, 1, 5, 7);
    assert AtRest(w, 5);
  }
}

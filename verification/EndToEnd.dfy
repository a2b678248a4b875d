/**
 From probe results to incidents (src/scheduler.ts:87-137, src/modules/incident/incident.service.ts:88-157, 281-302):
 exactly when an active incident says that the last persisted result of its check failed.
 */
module EndToEnd {
  import opened Common
  import opened IncidentModel
  import opened IncidentEngine
  import opened Serialisation
  import opened ProbeWorld
  import opened TransitionStream

  // ----- Hypotheses about one check -----

  /** No handler started by an event of check `c` is still working. */
  ghost predicate HandlersQuiet(s: State, c: CheckId) {
    forall q | q in s.ops :: AutoCheck(s.ops[q]) != Some(c)
  }

  /** No result of `c` is being handled. */
  ghost predicate NoneHandled(w: World, c: CheckId) {
    forall p :: !Concerns(w, p, c)
  }

  /** Nothing is going on about check `c`: no result being handled, no handler working. */
  ghost predicate AtRest(w: World, c: CheckId) {
    HandlersQuiet(w.engine, c) && NoneHandled(w, c)
  }

  /** Does `a` write a manual update that makes a resolved incident of `c` active again? */
  predicate Reopens(s: State, a: Action, c: CheckId) {
    a.Write? && a.op in s.ops && s.ops[a.op].Patching?
    && Activates(s.incidents, s.ops[a.op]) && s.incidents[s.ops[a.op].id].check == c
  }

  /**
   The handling of a result of `c` and the handler it triggers do not overlap with those of the next one, and the store
   calls of its handlers succeed. Operators may patch its incidents at any moment, between the reads and writes of a
   handler too; only a stale update must not reopen a resolved one. Other checks are free.
   */
  ghost predicate Careful(w: World, step: Step, c: CheckId) {
    && Alone(w, step, c)
    && (step.Handle? && step.p in w.probes && w.probes[step.p].copy.check == c ==> HandlersQuiet(w.engine, c))
    && (step.Engine? ==> !Reopens(w.engine, step.a, c))
    && (step.Engine? && step.a.Fail? && step.a.op in w.engine.ops ==> AutoCheck(w.engine.ops[step.a.op]) != Some(c))
  }

  /** No operator resolves an active incident of `c` by hand. */
  ghost predicate LeftToProbes(w: World, step: Step, c: CheckId) {
    step.Engine? && step.a.Write? && step.a.op in w.engine.ops ==>
      var o, m := w.engine.ops[step.a.op], w.engine.incidents;
      o.Patching? && o.req.UpdateIncident? && o.req.status == Some(Resolved) && o.id in m && m[o.id].check == c ==>
        !m[o.id].status.Active()
  }

  ghost predicate CarefulRun(w: World, run: seq<Step>, c: CheckId)
    requires Possible(w, run)
    decreases |run|
  {
    run != [] ==> Careful(w, run[0], c) && CarefulRun(After(w, run[0]), run[1..], c)
  }

  ghost predicate LeftToProbesRun(w: World, run: seq<Step>, c: CheckId)
    requires Possible(w, run)
    decreases |run|
  {
    run != [] ==> LeftToProbes(w, run[0], c) && LeftToProbesRun(After(w, run[0]), run[1..], c)
  }

  lemma {:induction false} CarefulIsAlone(w: World, run: seq<Step>, c: CheckId)
    requires Possible(w, run) && CarefulRun(w, run, c)
    ensures AloneRun(w, run, c)
    decreases |run|
  {
    if run != [] {
      CarefulIsAlone(After(w, run[0]), run[1..], c);
    }
  }

  // ----- The active incidents of one check -----

  ghost predicate HasActive(m: Incidents, t: TenantId, c: CheckId) {
    exists id :: ActiveFor(m, t, c, id)
  }

  ghost predicate AtMostOneOn(m: Incidents, c: CheckId) {
    forall t, i, j | ActiveFor(m, t, c, i) && ActiveFor(m, t, c, j) :: i == j
  }

  /** Is incident `id` one that the write of `req` may be about? */
  predicate Addressed(m: Incidents, req: Request, id: IncidentId) {
    && Owned(m, req.tenant, id)
    && match req
       case ResolveIncident(_, c) => m[id].check == c
       case UpdateIncident(_, i, _, _, _) => i == id
       case _ => false
  }

  /** Operations create for an event, and patch the incident their request is about. */
  ghost predicate Grounded(s: State) {
    && (forall q | q in s.ops && s.ops[q].Creating? :: s.ops[q].req.OpenIncident?)
    && (forall q | q in s.ops && s.ops[q].Patching? :: Addressed(s.incidents, s.ops[q].req, s.ops[q].id))
  }

  ghost predicate OneHandler(s: State, c: CheckId) {
    forall q, r | q in s.ops && r in s.ops && AutoCheck(s.ops[q]) == Some(c) && AutoCheck(s.ops[r]) == Some(c) :: q == r
  }

  /** A handler about to create still finds nothing active; one about to resolve has what is active in hand. */
  ghost predicate Aimed(m: Incidents, o: Op, c: CheckId) {
    && (o.Creating? ==> !HasActive(m, o.req.tenant, c))
    && (o.Patching? ==> forall id | ActiveFor(m, o.req.tenant, c, id) :: id == o.id)
  }

  ghost predicate EngineInv(s: State, c: CheckId) {
    && Grounded(s)
    && OneHandler(s, c)
    && (forall q | q in s.ops && AutoCheck(s.ops[q]) == Some(c) :: Aimed(s.incidents, s.ops[q], c))
    && AtMostOneOn(s.incidents, c)
  }

  lemma StepGrounded(s: State, a: Action)
    requires Enabled(s, a) && Grounded(s)
    ensures Grounded(Next(s, a))
  {
  }

  /** A write that is not a handler's of `c` activates none of its incidents, and ends one only as a manual resolution. */
  lemma ForeignWrite(s: State, a: Action, c: CheckId)
    requires Enabled(s, a) && a.Write? && Grounded(s) && AutoCheck(s.ops[a.op]) != Some(c) && !Reopens(s, a, c)
    ensures var o, m, m' := s.ops[a.op], s.incidents, Next(s, a).incidents;
            forall t, id ::
              && (ActiveFor(m', t, c, id) ==> ActiveFor(m, t, c, id))
              && (ActiveFor(m, t, c, id) && !ActiveFor(m', t, c, id) ==>
                    o.Patching? && o.id == id && o.req.UpdateIncident? && o.req.status == Some(Resolved))
  {
    var o, m, m' := s.ops[a.op], s.incidents, Next(s, a).incidents;
    var target := if o.Creating? then a.newId else o.id;
    assert forall t, id | id != target :: ActiveFor(m', t, c, id) <==> ActiveFor(m, t, c, id);
    assert o.Patching? ==> Addressed(m, o.req, o.id);
  }

  /** A handler's write opens or resolves the incident of its tenant, and no other. */
  lemma HandlerWrite(s: State, a: Action, c: CheckId)
    requires Enabled(s, a) && a.Write? && EngineInv(s, c) && AutoCheck(s.ops[a.op]) == Some(c)
    ensures var o, m, m' := s.ops[a.op], s.incidents, Next(s, a).incidents;
            && AtMostOneOn(m', c)
            && HasActive(m', o.req.tenant, c) == o.req.OpenIncident?
            && (forall t, id | t != o.req.tenant :: ActiveFor(m', t, c, id) <==> ActiveFor(m, t, c, id))
  {
    var o, m, m' := s.ops[a.op], s.incidents, Next(s, a).incidents;
    var target := if o.Creating? then a.newId else o.id;
    assert Aimed(m, o, c);
    assert forall t, id | id != target :: ActiveFor(m', t, c, id) <==> ActiveFor(m, t, c, id);
    if o.Creating? {
      assert ActiveFor(m', o.req.tenant, c, target) && target !in m;
    } else {
      assert Addressed(m, o.req, o.id);
    }
  }

  /** What a write does to the active incidents of check `c`. */
  lemma WriteEffect(s: State, a: Action, t: TenantId, c: CheckId)
    requires Enabled(s, a) && a.Write? && EngineInv(s, c) && !Reopens(s, a, c)
    ensures AtMostOneOn(Next(s, a).incidents, c)
    ensures var o, m, m' := s.ops[a.op], s.incidents, Next(s, a).incidents;
            && (o.Creating? && o.req == OpenIncident(t, c) ==> HasActive(m', t, c))
            && (o.Patching? && o.req == ResolveIncident(t, c) ==> !HasActive(m', t, c))
            && ((o.Creating? ==> o.req != OpenIncident(t, c)) && HasActive(m', t, c) ==> HasActive(m, t, c))
            && (AutoCheck(o) != Some(c) && HasActive(m, t, c) && !HasActive(m', t, c) ==>
                  o.Patching? && o.req.UpdateIncident? && o.req.status == Some(Resolved)
                  && m[o.id].check == c && m[o.id].status.Active())
  {
    if AutoCheck(s.ops[a.op]) == Some(c) {
      HandlerWrite(s, a, c);
    } else {
      ForeignWrite(s, a, c);
    }
  }

  /** An engine step starts no handler; a write ends the one whose write it is. */
  lemma NoNewHandlers(s: State, a: Action)
    requires Enabled(s, a) && (a.Call? ==> CheckOf(a.req).None?)
    ensures var s' := Next(s, a);
            forall q | q in s'.ops && AutoCheck(s'.ops[q]).Some? ::
              && q in s.ops && AutoCheck(s'.ops[q]) == AutoCheck(s.ops[q]) && s'.ops[q].req == s.ops[q].req
              && (a.Write? || !a.Read? ==> s'.ops[q] == s.ops[q])
              && (a.Write? ==> q != a.op)
  {
  }

  lemma WriteAims(s: State, a: Action, c: CheckId)
    requires Enabled(s, a) && a.Write? && EngineInv(s, c) && !Reopens(s, a, c)
    ensures var s' := Next(s, a);
            forall q | q in s'.ops && AutoCheck(s'.ops[q]) == Some(c) :: Aimed(s'.incidents, s'.ops[q], c)
  {
    var s' := Next(s, a);
    NoNewHandlers(s, a);
    forall q | q in s'.ops && AutoCheck(s'.ops[q]) == Some(c)
      ensures Aimed(s'.incidents, s'.ops[q], c)
    {
      assert Aimed(s.incidents, s.ops[q], c) && AutoCheck(s.ops[a.op]) != Some(c);
      ForeignWrite(s, a, c);
    }
  }

  lemma OtherAims(s: State, a: Action, c: CheckId)
    requires Enabled(s, a) && !a.Write? && (a.Call? ==> CheckOf(a.req).None?) && EngineInv(s, c)
    ensures var s' := Next(s, a);
            forall q | q in s'.ops && AutoCheck(s'.ops[q]) == Some(c) :: Aimed(s'.incidents, s'.ops[q], c)
  {
    var s' := Next(s, a);
    NoNewHandlers(s, a);
    assert s'.incidents == s.incidents;
    forall q | q in s'.ops && AutoCheck(s'.ops[q]) == Some(c)
      ensures Aimed(s'.incidents, s'.ops[q], c)
    {
      assert q in s.ops && Aimed(s.incidents, s.ops[q], c);
    }
  }

  lemma StepEngine(s: State, a: Action, c: CheckId)
    requires Enabled(s, a) && (a.Call? ==> CheckOf(a.req).None?) && !Reopens(s, a, c) && EngineInv(s, c)
    ensures EngineInv(Next(s, a), c)
  {
    StepGrounded(s, a);
    NoNewHandlers(s, a);
    if a.Write? {
      WriteAims(s, a, c);
      WriteEffect(s, a, 0, c);
    } else {
      OtherAims(s, a, c);
      assert Next(s, a).incidents == s.incidents;
    }
  }

  // ----- Handlers and incidents follow the results -----

  /** While a handler of `c` works, no result of `c` is being handled. */
  ghost predicate TakingTurns(w: World, c: CheckId) {
    HandlersQuiet(w.engine, c) || NoneHandled(w, c)
  }

  /** A handler of `c` works for the check's tenant, and towards the last persisted result. */
  ghost predicate HandlerInv(w: World, c: CheckId)
    requires c in w.clock.checks
  {
    forall q | q in w.engine.ops && AutoCheck(w.engine.ops[q]) == Some(c) ::
      && w.engine.ops[q].req.tenant == w.clock.checks[c].tenant
      && LastOk(ResultsFor(w.results, c)) == Some(w.engine.ops[q].req.ResolveIncident?)
  }

  /** The incident says that a check is failing; `probesOnly` adds that it does so whenever the check is. */
  predicate Tells(active: bool, failing: bool, probesOnly: bool) {
    (active ==> failing) && (probesOnly && failing ==> active)
  }

  ghost predicate ActiveOn(w: World, c: CheckId)
    requires c in w.clock.checks
  {
    HasActive(w.engine.incidents, w.clock.checks[c].tenant, c)
  }

  /** The incident follows the results, but for the one not yet published; a working handler is given time. */
  ghost predicate IncidentInv(w: World, c: CheckId, probesOnly: bool)
    requires c in w.clock.checks
  {
    var results := ResultsFor(w.results, c);
    if !Flushed(w, c) then Tells(ActiveOn(w, c), !Passing(Earlier(results)), probesOnly)
    else HandlersQuiet(w.engine, c) ==> Tells(ActiveOn(w, c), !Passing(results), probesOnly)
  }

  ghost predicate FollowInv(w: World, c: CheckId, probesOnly: bool) {
    c in w.clock.checks ==> HandlerInv(w, c) && IncidentInv(w, c, probesOnly)
  }

  ghost predicate CheckInv(w: World, c: CheckId, probesOnly: bool) {
    Single(w, c) && Stored(w, c) && EngineInv(w.engine, c) && TakingTurns(w, c) && FollowInv(w, c, probesOnly)
  }

  // ----- What can go wrong -----

  /**
   The verdict of a stored check changes and nobody hears of it: the change is published through a copy that did not
   agree with the results before it, or is lost with the answer to its write.
   */
  ghost predicate Missed(w: World, step: Step, c: CheckId) {
    c in w.clock.checks &&
    match step
    case Publish(p, _) =>
      var earlier := Earlier(ResultsFor(w.results, c));
      Pending(w, p, c) && w.probes[p].last.ok != Passing(earlier) && !Agrees(w.probes[p].prevOk, earlier)
    case PersistLost(p) => Concerns(w, p, c) && w.probes[p].last.ok != Passing(ResultsFor(w.results, c))
    case _ => false
  }

  /** No change is missed; or, for the one direction alone, no recovery is missed while an incident is active. */
  ghost predicate Harmless(w: World, step: Step, c: CheckId, probesOnly: bool) {
    Missed(w, step, c) ==>
      !probesOnly && ((step.Publish? || step.PersistLost?) && w.probes[step.p].last.ok ==> !ActiveOn(w, c))
  }

  ghost predicate HarmlessRun(w: World, run: seq<Step>, c: CheckId, probesOnly: bool)
    requires Possible(w, run)
    decreases |run|
  {
    run != [] ==> Harmless(w, run[0], c, probesOnly) && HarmlessRun(After(w, run[0]), run[1..], c, probesOnly)
  }

  // ----- Steps -----

  lemma EngineLeavesProbes(w: World, a: Action, c: CheckId)
    requires CanStep(w, Engine(a))
    ensures var w' := After(w, Engine(a));
            && w' == w.(engine := Next(w.engine, a))
            && Flushed(w', c) == Flushed(w, c) && NoneHandled(w', c) == NoneHandled(w, c)
  {
    assert forall p :: Concerns(After(w, Engine(a)), p, c) <==> Concerns(w, p, c);
    assert forall p :: Pending(After(w, Engine(a)), p, c) <==> Pending(w, p, c);
  }

  /** The engine's own steps other than a write change no incident and start no handler. */
  lemma QuietEngineStep(w: World, a: Action, c: CheckId, probesOnly: bool)
    requires CanStep(w, Engine(a)) && Careful(w, Engine(a), c) && !a.Write? && c in w.clock.checks
    requires EngineInv(w.engine, c) && HandlerInv(w, c) && IncidentInv(w, c, probesOnly)
    ensures HandlerInv(After(w, Engine(a)), c) && IncidentInv(After(w, Engine(a)), c, probesOnly)
  {
    var s, s' := w.engine, Next(w.engine, a);
    NoNewHandlers(s, a);
    EngineLeavesProbes(w, a, c);
    assert s'.incidents == s.incidents;
    if HandlersQuiet(s', c) && !HandlersQuiet(s, c) {
      // the step is a read that answers the one working handler
      var q :| q in s.ops && AutoCheck(s.ops[q]) == Some(c);
      assert q == a.op && a.Read?;
      assert a.answer.Some? ==> ActiveFor(s.incidents, w.clock.checks[c].tenant, c, a.answer.value);
    }
  }

  lemma EngineWriteStep(w: World, a: Action, c: CheckId, probesOnly: bool)
    requires CanStep(w, Engine(a)) && Careful(w, Engine(a), c) && a.Write? && c in w.clock.checks
    requires probesOnly ==> LeftToProbes(w, Engine(a), c)
    requires EngineInv(w.engine, c) && TakingTurns(w, c) && HandlerInv(w, c) && IncidentInv(w, c, probesOnly)
    ensures HandlerInv(After(w, Engine(a)), c) && IncidentInv(After(w, Engine(a)), c, probesOnly)
  {
    var s, s' := w.engine, Next(w.engine, a);
    NoNewHandlers(s, a);
    EngineLeavesProbes(w, a, c);
    WriteEffect(s, a, w.clock.checks[c].tenant, c);
    if HandlersQuiet(s', c) && !HandlersQuiet(s, c) {
      var q :| q in s.ops && AutoCheck(s.ops[q]) == Some(c);
      assert q == a.op;
    } else {
      assert AutoCheck(s.ops[a.op]) == Some(c) ==> !HandlersQuiet(s, c) && Flushed(w, c);
    }
  }

  /** A publish of `c` that becomes no event leaves it at rest. */
  lemma SilentPublish(w: World, step: Step, c: CheckId)
    requires CanStep(w, step) && step.Publish? && w.probes[step.p].copy.check == c && Single(w, c) && TakingTurns(w, c)
    requires EventFor(w.probes[step.p]).None?
    ensures After(w, step).engine == w.engine && AtRest(After(w, step), c) && Flushed(After(w, step), c)
  {
    OwnPublish(w, step, c);
    assert Concerns(w, step.p, c);
  }

  lemma PublishStepOwn(w: World, step: Step, c: CheckId, probesOnly: bool)
    requires CanStep(w, step) && step.Publish? && w.probes[step.p].copy.check == c
    requires c in w.clock.checks && CheckInv(w, c, probesOnly) && Harmless(w, step, c, probesOnly)
    ensures HandlerInv(After(w, step), c) && IncidentInv(After(w, step), c, probesOnly)
  {
    var w' := After(w, step);
    var probe := w.probes[step.p];
    var results := ResultsFor(w.results, c);
    OwnPublish(w, step, c);
    assert Pending(w, step.p, c) && HandlersQuiet(w.engine, c);
    SplitLast(results, probe.last.ok);
    if EventFor(probe).Some? {
      assert AutoCheck(w'.engine.ops[step.op]) == Some(c);
      assert forall q | q in w'.engine.ops && AutoCheck(w'.engine.ops[q]) == Some(c) :: q == step.op;
    } else {
      SilentPublish(w, step, c);
    }
  }

  lemma LostStepOwn(w: World, step: Step, c: CheckId, probesOnly: bool)
    requires CanStep(w, step) && step.PersistLost? && w.probes[step.p].copy.check == c
    requires c in w.clock.checks && CheckInv(w, c, probesOnly) && Harmless(w, step, c, probesOnly)
    ensures HandlerInv(After(w, step), c) && IncidentInv(After(w, step), c, probesOnly)
  {
    OwnLost(w, step, c);
    assert Concerns(w, step.p, c) && HandlersQuiet(w.engine, c);
  }

  lemma PersistStepOwn(w: World, step: Step, c: CheckId, probesOnly: bool)
    requires CanStep(w, step) && step.Persist? && w.probes[step.p].copy.check == c
    requires c in w.clock.checks && CheckInv(w, c, probesOnly)
    ensures HandlerInv(After(w, step), c) && IncidentInv(After(w, step), c, probesOnly)
  {
    OwnPersist(w, step, c);
    assert Concerns(w, step.p, c) && HandlersQuiet(w.engine, c);
  }

  /** The handlers of `c` in `s'` are those in `s`. */
  ghost predicate SameHandlers(s: State, s': State, c: CheckId) {
    && (forall q | q in s'.ops && AutoCheck(s'.ops[q]) == Some(c) :: q in s.ops && s'.ops[q] == s.ops[q])
    && (forall q | q in s.ops :: q in s'.ops && s'.ops[q] == s.ops[q])
  }

  /** Where incidents, results and handlers of `c` are as they were, they still follow. */
  lemma NothingNewFollows(w: World, w': World, c: CheckId, probesOnly: bool)
    requires c in w.clock.checks && c in w'.clock.checks && w'.clock.checks[c].tenant == w.clock.checks[c].tenant
    requires SameHandlers(w.engine, w'.engine, c) && w'.engine.incidents == w.engine.incidents
    requires ResultsFor(w'.results, c) == ResultsFor(w.results, c) && Flushed(w', c) == Flushed(w, c)
    requires HandlerInv(w, c) && IncidentInv(w, c, probesOnly)
    ensures HandlerInv(w', c) && IncidentInv(w', c, probesOnly)
  {
    assert HandlersQuiet(w'.engine, c) == HandlersQuiet(w.engine, c);
  }

  /** Steps of the scheduler, and those about results of other checks, leave all of that as it was. */
  lemma QuietStep(w: World, step: Step, c: CheckId, probesOnly: bool)
    requires CanStep(w, step) && Quiet(w, step, c) && !step.Engine?
    requires c in w.clock.checks && c in After(w, step).clock.checks
    requires HandlerInv(w, c) && IncidentInv(w, c, probesOnly)
    ensures HandlerInv(After(w, step), c) && IncidentInv(After(w, step), c, probesOnly)
  {
    var w' := After(w, step);
    assert Flushed(w', c) == Flushed(w, c) by { QuietPending(w, step, c); }
    QuietResults(w, step, c);
    QuietHandlers(w, step, c);
    QuietCheck(w, step, c);
    NothingNewFollows(w, w', c, probesOnly);
  }

  lemma QuietCheck(w: World, step: Step, c: CheckId)
    requires CanStep(w, step) && !step.Engine? && c in w.clock.checks && c in After(w, step).clock.checks
    ensures After(w, step).clock.checks[c].tenant == w.clock.checks[c].tenant
    ensures After(w, step).engine.incidents == w.engine.incidents
  {
  }

  lemma QuietHandlers(w: World, step: Step, c: CheckId)
    requires CanStep(w, step) && Quiet(w, step, c) && !step.Engine?
    ensures SameHandlers(w.engine, After(w, step).engine, c)
    ensures HandlersQuiet(After(w, step).engine, c) == HandlersQuiet(w.engine, c)
  {
  }

  lemma StepFollows(w: World, step: Step, c: CheckId, probesOnly: bool)
    requires CanStep(w, step) && Careful(w, step, c) && Harmless(w, step, c, probesOnly) && CheckInv(w, c, probesOnly)
    requires probesOnly ==> LeftToProbes(w, step, c)
    ensures FollowInv(After(w, step), c, probesOnly)
  {
    if c in After(w, step).clock.checks {
      if c !in w.clock.checks {
        FreshCheck(w, step, c, probesOnly);
      } else if step.Engine? {
        if step.a.Write? {
          EngineWriteStep(w, step.a, c, probesOnly);
        } else {
          QuietEngineStep(w, step.a, c, probesOnly);
        }
      } else if Quiet(w, step, c) {
        QuietStep(w, step, c, probesOnly);
      } else {
        match step
        case Persist(_) => PersistStepOwn(w, step, c, probesOnly);
        case PersistLost(_) => LostStepOwn(w, step, c, probesOnly);
        case Publish(_, _) => PublishStepOwn(w, step, c, probesOnly);
      }
    }
  }

  /** A check that has just been created has no results, incidents or handlers. */
  lemma FreshCheck(w: World, step: Step, c: CheckId, probesOnly: bool)
    requires CanStep(w, step) && c !in w.clock.checks && c in After(w, step).clock.checks
    ensures HandlerInv(After(w, step), c) && IncidentInv(After(w, step), c, probesOnly)
  {
    assert step.Timer? && step.k.Crud? && Unmentioned(w, c);
    NoResults(w.results, c);
    assert forall p :: !Concerns(After(w, step), p, c);
  }

  /** A publish only adds a handler that has read nothing yet. */
  lemma PublishAddsReader(w: World, step: Step)
    requires CanStep(w, step) && step.Publish?
    ensures var s, s' := w.engine, After(w, step).engine;
            && s'.incidents == s.incidents
            && (forall q | q in s'.ops && q != step.op :: q in s.ops && s'.ops[q] == s.ops[q])
            && (step.op in s'.ops ==> s'.ops[step.op].Finding?)
            && (step.op in s'.ops && AutoCheck(s'.ops[step.op]).Some? ==>
                  AutoCheck(s'.ops[step.op]) == Some(w.probes[step.p].copy.check))
  {
  }

  lemma PublishKeepsEngine(w: World, step: Step, c: CheckId)
    requires CanStep(w, step) && step.Publish? && TakingTurns(w, c) && EngineInv(w.engine, c)
    ensures EngineInv(After(w, step).engine, c)
  {
    var s, s' := w.engine, After(w, step).engine;
    PublishAddsReader(w, step);
    if w.probes[step.p].copy.check == c {
      assert Concerns(w, step.p, c);
      assert HandlersQuiet(s, c);
    }
    assert Grounded(s');
    assert OneHandler(s', c);
    forall q | q in s'.ops && AutoCheck(s'.ops[q]) == Some(c)
      ensures Aimed(s'.incidents, s'.ops[q], c)
    {
      if q != step.op {
        assert Aimed(s.incidents, s.ops[q], c);
      }
    }
  }

  lemma EngineKept(w: World, step: Step, c: CheckId)
    requires CanStep(w, step) && Careful(w, step, c) && TakingTurns(w, c) && EngineInv(w.engine, c)
    ensures EngineInv(After(w, step).engine, c)
  {
    if step.Engine? {
      StepEngine(w.engine, step.a, c);
    } else if step.Publish? {
      PublishKeepsEngine(w, step, c);
    } else {
      assert After(w, step).engine == w.engine;
    }
  }

  lemma TurnsKept(w: World, step: Step, c: CheckId)
    requires CanStep(w, step) && Careful(w, step, c) && Single(w, c) && TakingTurns(w, c)
    ensures TakingTurns(After(w, step), c)
  {
    if step.Engine? {
      NoNewHandlers(w.engine, step.a);
      EngineLeavesProbes(w, step.a, c);
    } else if Quiet(w, step, c) {
      QuietHandlers(w, step, c);
      QuietHandling(w, step, c);
    } else {
      match step
      case Persist(_) => assert Concerns(w, step.p, c);
      case PersistLost(_) => OwnLost(w, step, c);
      case Publish(_, _) => OwnPublish(w, step, c);
    }
  }

  lemma StepChecks(w: World, step: Step, c: CheckId, probesOnly: bool)
    requires CanStep(w, step) && Careful(w, step, c) && Harmless(w, step, c, probesOnly) && CheckInv(w, c, probesOnly)
    requires probesOnly ==> LeftToProbes(w, step, c)
    ensures CheckInv(After(w, step), c, probesOnly)
  {
    StepSingle(w, step, c);
    StepStored(w, step, c);
    EngineKept(w, step, c);
    TurnsKept(w, step, c);
    StepFollows(w, step, c, probesOnly);
  }

  // ----- Exactly when the incident tells -----

  /** A stored check at rest has an active incident only if its last result failed; with `probesOnly`, exactly then. */
  ghost predicate Truthful(w: World, c: CheckId, probesOnly: bool) {
    c in w.clock.checks && AtRest(w, c) ==>
      Tells(ActiveOn(w, c), OkOf(w.clock.checks[c].lastResult) == Some(false), probesOnly)
  }

  ghost predicate TruthfulAlong(w: World, run: seq<Step>, c: CheckId, probesOnly: bool)
    requires Possible(w, run)
    decreases |run|
  {
    Truthful(w, c, probesOnly) && (run != [] ==> TruthfulAlong(After(w, run[0]), run[1..], c, probesOnly))
  }

  lemma InvTells(w: World, c: CheckId, probesOnly: bool)
    requires CheckInv(w, c, probesOnly)
    ensures Truthful(w, c, probesOnly)
  {
    if c in w.clock.checks && AtRest(w, c) {
      assert forall p :: !Pending(w, p, c);
    }
  }

  /** A step that misses a change leaves the check at rest with an incident that does not tell. */
  lemma MissedShows(w: World, step: Step, c: CheckId, probesOnly: bool)
    requires CanStep(w, step) && CheckInv(w, c, probesOnly) && !Harmless(w, step, c, probesOnly)
    ensures !Truthful(After(w, step), c, probesOnly)
  {
    var w' := After(w, step);
    StepStored(w, step, c);
    if step.Publish? {
      OwnPublish(w, step, c);
      SplitLast(ResultsFor(w.results, c), w.probes[step.p].last.ok);
      SilentPublish(w, step, c);
    } else {
      OwnLost(w, step, c);
      assert HandlersQuiet(w.engine, c);
    }
    assert w'.engine == w.engine && AtRest(w', c);
  }

  lemma {:induction false} RunTells(w: World, run: seq<Step>, c: CheckId, probesOnly: bool)
    requires Possible(w, run) && CarefulRun(w, run, c) && CheckInv(w, c, probesOnly)
    requires probesOnly ==> LeftToProbesRun(w, run, c)
    ensures TruthfulAlong(w, run, c, probesOnly) <==> HarmlessRun(w, run, c, probesOnly)
    decreases |run|
  {
    InvTells(w, c, probesOnly);
    if run != [] {
      var w' := After(w, run[0]);
      if Harmless(w, run[0], c, probesOnly) {
        StepChecks(w, run[0], c, probesOnly);
        RunTells(w', run[1..], c, probesOnly);
      } else {
        MissedShows(w, run[0], c, probesOnly);
      }
    }
  }

  lemma StartInv(c: CheckId, probesOnly: bool)
    ensures CheckInv(EMPTY_WORLD, c, probesOnly)
  {
  }

  /**
   For every run careful about a check. With `probesOnly`, when no operator resolves one of its incidents by hand: at
   every point at rest it has an active incident exactly if its last persisted result failed, if and only if no change of
   its verdict is missed. Without it: at every point at rest an active incident means that the last result failed, if and
   only if no recovery is missed while an incident is active.
   */
  lemma {:induction false} IncidentTellsExactly(run: seq<Step>, c: CheckId, probesOnly: bool)
    requires Possible(EMPTY_WORLD, run) && CarefulRun(EMPTY_WORLD, run, c)
    requires probesOnly ==> LeftToProbesRun(EMPTY_WORLD, run, c)
    ensures TruthfulAlong(EMPTY_WORLD, run, c, probesOnly) <==> HarmlessRun(EMPTY_WORLD, run, c, probesOnly)
  {
    StartInv(c, probesOnly);
    RunTells(EMPTY_WORLD, run, c, probesOnly);
  }

  // ----- At most one active incident, and what is enough for it to tell -----

  /** The part of the invariant that no copy's memory can break. */
  ghost predicate EngineSide(w: World, c: CheckId) {
    Single(w, c) && EngineInv(w.engine, c) && TakingTurns(w, c)
  }

  lemma {:induction false} RunEngine(w: World, run: seq<Step>, c: CheckId)
    requires Possible(w, run) && CarefulRun(w, run, c) && EngineSide(w, c)
    ensures EngineSide(Outcome(w, run), c)
    decreases |run|
  {
    if run != [] {
      StepSingle(w, run[0], c);
      EngineKept(w, run[0], c);
      TurnsKept(w, run[0], c);
      RunEngine(After(w, run[0]), run[1..], c);
    }
  }

  /** In every careful run, whatever the copies remember, a check never has two active incidents. */
  lemma {:induction false} NeverTwoActive(run: seq<Step>, c: CheckId)
    requires Possible(EMPTY_WORLD, run) && CarefulRun(EMPTY_WORLD, run, c)
    ensures AtMostOneOn(Outcome(EMPTY_WORLD, run).engine.incidents, c)
  {
    StartInv(c, false);
    RunEngine(EMPTY_WORLD, run, c);
  }

  lemma {:induction false} RunChecks(w: World, run: seq<Step>, c: CheckId, probesOnly: bool)
    requires Possible(w, run) && CarefulRun(w, run, c) && CheckInv(w, c, probesOnly)
    requires HarmlessRun(w, run, c, probesOnly) && (probesOnly ==> LeftToProbesRun(w, run, c))
    ensures CheckInv(Outcome(w, run), c, probesOnly)
    decreases |run|
  {
    if run != [] {
      StepChecks(w, run[0], c, probesOnly);
      RunChecks(After(w, run[0]), run[1..], c, probesOnly);
    }
  }

  /** At most one incident of the check is active, and the incident tells. */
  ghost predicate IncidentTells(w: World, c: CheckId, probesOnly: bool) {
    AtMostOneOn(w.engine.incidents, c) && Truthful(w, c, probesOnly)
  }

  /**
   In every careful run that misses no change: the check never has two active incidents; at rest it has one only if its
   last persisted result failed; and if no operator resolves one by hand, exactly if it failed. Without that last claim
   it is enough to miss no recovery while an incident is active.
   */
  lemma {:induction false} ActiveIncidentMeansFailing(run: seq<Step>, c: CheckId, probesOnly: bool)
    requires Possible(EMPTY_WORLD, run) && CarefulRun(EMPTY_WORLD, run, c)
    requires HarmlessRun(EMPTY_WORLD, run, c, probesOnly) && (probesOnly ==> LeftToProbesRun(EMPTY_WORLD, run, c))
    ensures IncidentTells(Outcome(EMPTY_WORLD, run), c, probesOnly)
  {
    StartInv(c, probesOnly);
    RunChecks(EMPTY_WORLD, run, c, probesOnly);
    InvTells(Outcome(EMPTY_WORLD, run), c, probesOnly);
  }

  lemma {:induction false} BelievedMissesNothing(w: World, run: seq<Step>, c: CheckId, probesOnly: bool)
    requires Possible(w, run) && AloneRun(w, run, c) && BelievedRun(w, run, c) && Lined(w, c) && PendingAgrees(w, c)
    ensures HarmlessRun(w, run, c, probesOnly)
    decreases |run|
  {
    if run != [] {
      StepLined(w, run[0], c);
      BelievedMissesNothing(After(w, run[0]), run[1..], c, probesOnly);
    }
  }

  /** Believable copies miss no change. */
  lemma {:induction false} BelievedKeepsIncidentsTrue(run: seq<Step>, c: CheckId)
    requires Possible(EMPTY_WORLD, run) && CarefulRun(EMPTY_WORLD, run, c) && BelievedRun(EMPTY_WORLD, run, c)
    ensures IncidentTells(Outcome(EMPTY_WORLD, run), c, LeftToProbesRun(EMPTY_WORLD, run, c))
  {
    CarefulIsAlone(EMPTY_WORLD, run, c);
    BelievedMissesNothing(EMPTY_WORLD, run, c, LeftToProbesRun(EMPTY_WORLD, run, c));
    ActiveIncidentMeansFailing(run, c, LeftToProbesRun(EMPTY_WORLD, run, c));
  }

  /** Nor do copies of the load answered last, when no change is lost with the answer to its write. */
  lemma {:induction false} LastLoadKeepsIncidentsTrue(run: seq<Step>, c: CheckId)
    requires Possible(EMPTY_WORLD, run) && CarefulRun(EMPTY_WORLD, run, c) && LastLoadRun(EMPTY_WORLD, run, c)
    ensures IncidentTells(Outcome(EMPTY_WORLD, run), c, LeftToProbesRun(EMPTY_WORLD, run, c))
  {
    CarefulIsAlone(EMPTY_WORLD, run, c);
    LastLoadCopiesAreBelieved(run, c);
    BelievedKeepsIncidentsTrue(run, c);
  }

  /** And reloads and stops that wait for the last reload, answered with no probe of the check in flight, leave no others. */
  lemma {:induction false} CalmReloadsKeepIncidentsTrue(run: seq<Step>, c: CheckId)
    requires Possible(EMPTY_WORLD, run) && CarefulRun(EMPTY_WORLD, run, c) && TransitionStream.CalmRun(EMPTY_WORLD, run, c)
    ensures IncidentTells(Outcome(EMPTY_WORLD, run), c, LeftToProbesRun(EMPTY_WORLD, run, c))
  {
    CalmReloadsProbeTheLastLoad(run, c);
    LastLoadKeepsIncidentsTrue(run, c);
  }
}

/**
 What the scheduler's copies hold (src/scheduler.ts:73-76, 87-106, 132): the documents as stored when their load was
 answered, and since then the last result published through them.
 */
module LoadedCopies {
  import opened Common
  import opened IncidentModel
  import opened CheckModel
  import opened ProbeWorld
  import T = Timers

  /** The two documents agree in everything but the last result. */
  ghost predicate SameSettings(a: Check, b: Check) {
    && a.tenant == b.tenant && a.name == b.name && a.url == b.url && a.enabled == b.enabled
    && a.expectedStatus == b.expectedStatus && a.maxLatencyMs == b.maxLatencyMs
  }

  /** Does the step publish a result that came through `copy`? */
  predicate PublishesThrough(w: World, step: Step, copy: Copy) {
    step.Publish? && step.p in w.probes && w.probes[step.p].Handling? && w.probes[step.p].copy == copy
  }

  /** What a copy remembers after the run: the last result published through it, or what it remembered before. */
  ghost function Memory(w: World, run: seq<Step>, copy: Copy, before: Option<LastResult>): Option<LastResult>
    requires Possible(w, run)
    decreases |run|
  {
    if run == [] then before
    else
      var next := if PublishesThrough(w, run[0], copy) then Some(w.probes[run[0].p].last) else before;
      Memory(After(w, run[0]), run[1..], copy, next)
  }

  /** An answered load files a copy of each enabled check as stored, and touches no other load's copies. */
  lemma AnswerFiles(w: World, l: LoadId, copy: Copy)
    requires CanStep(w, Timer(T.ReadDb(l)))
    ensures var docs' := After(w, Timer(T.ReadDb(l))).docs;
            if copy.load == l then
              && (Has(docs', copy) <==> copy.check in w.clock.checks && w.clock.checks[copy.check].enabled)
              && (Has(docs', copy) ==> At(docs', copy) == w.clock.checks[copy.check])
            else Has(docs', copy) == Has(w.docs, copy) && (Has(docs', copy) ==> At(docs', copy) == At(w.docs, copy))
  {
  }

  /** A filed load is never answered again, and a publish through one copy is remembered by that copy only. */
  lemma StepKeepsCopy(w: World, step: Step, copy: Copy)
    requires CanStep(w, step) && Filed(w) && copy.load in w.docs
    ensures var docs' := After(w, step).docs;
            && copy.load in docs' && Has(docs', copy) == Has(w.docs, copy)
            && (Has(docs', copy) ==>
                  && SameSettings(At(docs', copy), At(w.docs, copy))
                  && At(docs', copy).lastResult ==
                     if PublishesThrough(w, step, copy) then Some(w.probes[step.p].last) else At(w.docs, copy).lastResult)
  {
    if step.Timer? && step.k.ReadDb? {
      assert step.k.load != copy.load;
      AnswerFiles(w, step.k.load, copy);
    } else if step.Publish? {
      RecordedSetsTheResult(w.docs[w.probes[step.p].copy.load], w.probes[step.p].copy.check, w.probes[step.p].last);
    }
  }

  lemma {:induction false} RunKeepsCopy(w: World, run: seq<Step>, copy: Copy)
    requires Possible(w, run) && Filed(w) && copy.load in w.docs
    ensures var docs' := Outcome(w, run).docs;
            && Has(docs', copy) == Has(w.docs, copy)
            && (Has(docs', copy) ==>
                  && SameSettings(At(docs', copy), At(w.docs, copy))
                  && At(docs', copy).lastResult == Memory(w, run, copy, At(w.docs, copy).lastResult))
    decreases |run|
  {
    if run != [] {
      StepKeepsCopy(w, run[0], copy);
      StepFiled(w, run[0]);
      RunKeepsCopy(After(w, run[0]), run[1..], copy);
    }
  }

  /**
   However the run goes on after a load was answered: its copy of a check is in memory if and only if the check was
   stored and enabled at that moment. It still has the settings stored then, whatever became of the check since, and
   remembers the last result published through it, or else the one stored then.
   */
  lemma {:induction false} CopiesHoldWhatWasStored(run: seq<Step>, l: LoadId, later: seq<Step>, c: CheckId)
    requires Possible(EMPTY_WORLD, run) && CanStep(Outcome(EMPTY_WORLD, run), Timer(T.ReadDb(l)))
    requires Possible(After(Outcome(EMPTY_WORLD, run), Timer(T.ReadDb(l))), later)
    ensures var stored := Outcome(EMPTY_WORLD, run).clock.checks;
            var answered := After(Outcome(EMPTY_WORLD, run), Timer(T.ReadDb(l)));
            var docs := Outcome(answered, later).docs;
            && (Has(docs, Copy(l, c)) <==> c in stored && stored[c].enabled)
            && (Has(docs, Copy(l, c)) ==>
                  var doc := docs[l][c];
                  && doc.tenant == stored[c].tenant && doc.name == stored[c].name && doc.url == stored[c].url
                  && doc.enabled && doc.expectedStatus == stored[c].expectedStatus
                  && doc.maxLatencyMs == stored[c].maxLatencyMs
                  && doc.lastResult == Memory(answered, later, Copy(l, c), stored[c].lastResult))
  {
    var w := Outcome(EMPTY_WORLD, run);
    RunFiled(EMPTY_WORLD, run);
    AnswerFiles(w, l, Copy(l, c));
    StepFiled(w, Timer(T.ReadDb(l)));
    RunKeepsCopy(After(w, Timer(T.ReadDb(l))), later, Copy(l, c));
  }

  /** A probe through a copy is judged by what was stored when the copy's load was answered. */
  lemma {:induction false} JudgedAsStored(
    run: seq<Step>, l: LoadId, later: seq<Step>, c: CheckId, response: Option<int>, latencyMs: int)
    requires Possible(EMPTY_WORLD, run) && CanStep(Outcome(EMPTY_WORLD, run), Timer(T.ReadDb(l)))
    requires Possible(After(Outcome(EMPTY_WORLD, run), Timer(T.ReadDb(l))), later)
    requires Has(Outcome(After(Outcome(EMPTY_WORLD, run), Timer(T.ReadDb(l))), later).docs, Copy(l, c))
    ensures var stored := Outcome(EMPTY_WORLD, run).clock.checks;
            var docs := Outcome(After(Outcome(EMPTY_WORLD, run), Timer(T.ReadDb(l))), later).docs;
            && c in stored
            && (Verdict(At(docs, Copy(l, c)), response, latencyMs).ok <==>
                  response == Some(stored[c].expectedStatus) && latencyMs <= stored[c].maxLatencyMs)
  {
    CopiesHoldWhatWasStored(run, l, later, c);
  }
}

/**
 The scheduler in place (src/scheduler.ts:147-232): the `timers` map, its loops, and the callbacks.
 Each method is the code between two yields; its contract is one step of `Timers`.
 */
module SchedulerInPlace {
  import opened Common
  import opened IncidentModel
  import opened CheckModel
  import opened Timers

  class Scheduler {
    const repo: CheckRepo
    var subscribed: bool
    var signals: nat
    var waiting: map<LoadId, Option<set<CheckId>>>
    var timers: map<CheckId, HandleId>
    var live: map<HandleId, Copy>
    var pending: map<TimeoutId, Copy>
    ghost var begun: set<LoadId>
    ghost var answered: Option<LoadId>
    ghost var rejected: bool

    ghost function Snapshot(): Clock
      reads this, repo
    {
      Clock(repo.docs, subscribed, signals, Loads(waiting, begun, answered, rejected), Alarms(timers, live, pending))
    }

    constructor ()
      ensures Snapshot() == IDLE && fresh(repo)
    {
      repo := new CheckRepo();
      subscribed, signals, waiting, timers, live, pending := false, 0, map[], map[], map[], map[];
      begun, answered, rejected := {}, None, false;
    }

    method ClearInterval(h: HandleId)
      modifies this`live
      ensures live == old(live) - {h}
    {
      live := live - {h};
    }

    /** Stops every tracked interval, one after the other, then forgets them. */
    method ClearAll()
      modifies this`live, this`timers
      ensures Alarms(timers, live, pending) == Cleared(old(Alarms(timers, live, pending)))
    {
      var rest := timers.Keys;
      while rest != {}
        invariant rest <= timers.Keys && timers == old(timers)
        invariant live == old(live) - (set c | c in timers && c !in rest :: timers[c])
      {
        var c :| c in rest;
        ClearInterval(timers[c]);
        rest := rest - {c};
      }
      timers := map[];
    }

    /** `reloadChecks` up to its await. */
    method BeginReload(load: LoadId)
      modifies this
      ensures Snapshot() == Reloading(old(Snapshot()), load)
    {
      ClearAll();
      waiting := waiting[load := None];
      begun, rejected := begun + {load}, false;
    }

    /** `startScheduler` up to its await: subscribe, then the first reload. */
    method StartScheduler(load: LoadId)
      requires CanTick(Snapshot(), Start(load))
      modifies this
      ensures Snapshot() == After(old(Snapshot()), Start(load))
    {
      subscribed := true;
      BeginReload(load);
    }

    /** A request to the check service, up to its await. */
    method ServeCheck(req: CheckRequest, newId: CheckId) returns (reply: CheckReply)
      requires newId !in repo.docs
      modifies this`signals, repo
      ensures Snapshot() == After(old(Snapshot()), Crud(req, newId))
      ensures reply == CheckReplyTo(old(repo.docs), req, newId)
    {
      var signal;
      reply, signal := repo.Serve(req, newId);
      if signal {
        signals := signals + 1;
      }
    }

    /** The publish after the await: the handler, if it is still subscribed, starts a reload. */
    method PublishChange(load: LoadId)
      requires CanTick(Snapshot(), Signal(load))
      modifies this
      ensures Snapshot() == After(old(Snapshot()), Signal(load))
    {
      signals := signals - 1;
      if subscribed {
        BeginReload(load);
      }
    }

    /** The query of `loadEnabledChecks` is answered. */
    method DatabaseAnswers(load: LoadId)
      requires load in waiting && waiting[load].None?
      modifies this
      ensures Snapshot() == After(old(Snapshot()), ReadDb(load))
    {
      waiting := waiting[load := Some(set c | c in repo.docs && repo.docs[c].enabled)];
      answered := Some(load);
    }

    /** `scheduleCheck`. */
    method ScheduleCheck(copy: Copy, timeout: TimeoutId)
      modifies this`live, this`timers, this`pending
      ensures Alarms(timers, live, pending) == Scheduled(old(Alarms(timers, live, pending)), copy, timeout)
    {
      if copy.check in timers {
        ClearInterval(timers[copy.check]);
        timers := timers - {copy.check};
      }
      pending := pending[timeout := copy];
    }

    /** `reloadChecks` after its await: schedule every check that was loaded. */
    method FinishReload(load: LoadId, jitter: map<TimeoutId, CheckId>)
      requires CanTick(Snapshot(), Schedule(load, jitter))
      modifies this
      ensures Snapshot() == After(old(Snapshot()), Schedule(load, jitter))
    {
      var rest := jitter.Keys;
      ghost var start := Alarms(timers, live, pending);
      assert AllScheduled(start, load, map[]) == start;
      while rest != {}
        modifies this`live, this`timers, this`pending
        invariant rest <= jitter.Keys
        invariant Alarms(timers, live, pending) == AllScheduled(start, load, jitter - rest)
      {
        var timeout :| timeout in rest;
        OneMoreScheduled(start, load, jitter - rest, jitter[timeout], timeout);
        ScheduleCheck(Copy(load, jitter[timeout]), timeout);
        OneMoreTimeout(jitter, rest, timeout);
        rest := rest - {timeout};
      }
      assert jitter - rest == jitter;
      waiting := waiting - {load};
    }

    /** The load is rejected: the error is logged. */
    method ReloadFails(load: LoadId)
      requires load in waiting && waiting[load].None?
      modifies this
      ensures Snapshot() == After(old(Snapshot()), LoadFails(load))
    {
      waiting := waiting - {load};
      rejected := true;
    }

    /** A jitter timeout fires: start the interval and remember its handle. */
    method JitterElapsed(timeout: TimeoutId, handle: HandleId)
      requires timeout in pending && handle !in live
      modifies this
      ensures Snapshot() == After(old(Snapshot()), Fire(timeout, handle))
    {
      var copy := pending[timeout];
      pending := pending - {timeout};
      live := live[handle := copy];
      timers := timers[copy.check := handle];
    }

    /** The function `startScheduler` returns; it may be called again. */
    method StopScheduler()
      modifies this
      ensures Snapshot() == After(old(Snapshot()), Stop)
    {
      subscribed := false;
      ClearAll();
    }
  }

  lemma OneMoreTimeout(jitter: map<TimeoutId, CheckId>, rest: set<TimeoutId>, timeout: TimeoutId)
    requires timeout in rest && timeout in jitter
    ensures jitter - (rest - {timeout}) == (jitter - rest)[timeout := jitter[timeout]]
  {
  }
}

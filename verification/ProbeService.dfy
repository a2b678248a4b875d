/**
 `probeAndHandle`, `handleProbeResult` and the incident handler in place
 (src/scheduler.ts:73-137, src/modules/incident/incident.service.ts:281-303).
 Each method is the code between two awaits; its contract is one step of `ProbeWorld`.
 */
module ProbeService {
  import opened Common
  import opened IncidentModel
  import opened IncidentEngine
  import opened IncidentService
  import opened CheckModel
  import opened ProbeWorld
  import opened SchedulerInPlace
  import T = Timers

  class ProbeHandler {
    const scheduler: Scheduler
    const incidents: Service
    var docs: map<LoadId, Checks>
    var probes: map<ProbeId, Probe>
    var events: seq<Event>
    ghost var results: seq<(CheckId, bool)>

    ghost function Snapshot(): World
      reads this, scheduler, scheduler.repo, incidents, incidents.repo
    {
      World(incidents.Snapshot(), scheduler.Snapshot(), docs, probes, results, events)
    }

    constructor ()
      ensures Snapshot() == EMPTY_WORLD
      ensures fresh(scheduler) && fresh(scheduler.repo) && fresh(incidents) && fresh(incidents.repo)
    {
      scheduler := new Scheduler();
      incidents := new Service();
      docs, probes, events := map[], map[], [];
      results := [];
    }

    /** The query of a load is answered: every enabled check gets a new copy. */
    method LoadAnswered(load: LoadId)
      requires load in scheduler.waiting && scheduler.waiting[load].None?
      modifies this`docs, scheduler
      ensures Snapshot() == After(old(Snapshot()), Timer(T.ReadDb(load)))
      ensures load in docs && forall c :: (c in docs[load] <==> c in scheduler.repo.docs && scheduler.repo.docs[c].enabled)
                                          && (c in docs[load] ==> docs[load][c] == scheduler.repo.docs[c])
    {
      scheduler.DatabaseAnswers(load);
      var checks := scheduler.repo.docs;
      docs := docs[load := map c | c in checks && checks[c].enabled :: checks[c]];
    }

    /** An interval, or the callback that has just started it, probes through the copy it closes over. */
    method ProbeStarts(p: ProbeId, h: T.HandleId)
      requires CanStep(Snapshot(), Request(p, h))
      modifies this`probes
      ensures Snapshot() == After(old(Snapshot()), Request(p, h))
    {
      probes := probes[p := Requesting(scheduler.live[h])];
    }

    /** The request is over: judge it by the copy, remember the verdict the copy holds, and issue the write. */
    method HandleResult(p: ProbeId, response: Option<int>, latencyMs: int, now: Time)
      requires p in probes && probes[p].Requesting? && Has(docs, probes[p].copy)
      modifies this`probes
      ensures var r := Verdict(At(docs, old(probes)[p].copy), response, latencyMs);
              Snapshot() == After(old(Snapshot()), Handle(p, LastResult(r.statusCode, r.latencyMs, now, r.ok)))
      ensures p in probes && probes[p].Handling? && Has(docs, probes[p].copy)
      ensures var check, last := At(docs, probes[p].copy), probes[p].last;
              && (last.ok <==> response == Some(check.expectedStatus) && latencyMs <= check.maxLatencyMs)
              && last.status == (if response.Some? then response.value else 0)
              && last.latencyMs == latencyMs && last.checkedAt == now
    {
      var copy := probes[p].copy;
      var check := docs[copy.load][copy.check];
      var result := Verdict(check, response, latencyMs);
      var prevOk := None;
      if check.lastResult.Some? {
        prevOk := Some(check.lastResult.value.ok);
      }
      var last := LastResult(result.statusCode, result.latencyMs, now, result.ok);
      probes := probes[p := Handling(copy, check.tenant, prevOk, last, false)];
    }

    /** The write of the last result takes effect. */
    method PersistTakesEffect(p: ProbeId)
      requires CanStep(Snapshot(), Persist(p))
      modifies this, scheduler.repo
      ensures Snapshot() == After(old(Snapshot()), Persist(p))
    {
      var probe := probes[p];
      scheduler.repo.SetLastResult(probe.copy.check, probe.last);
      probes := probes[p := probe.(persisted := true)];
      results := results + [(probe.copy.check, probe.last.ok)];
    }

    /** The write takes effect, but its answer is an error: that is logged, and neither the copy nor the bus hears of it. */
    method PersistAnswerLost(p: ProbeId)
      requires CanStep(Snapshot(), PersistLost(p))
      modifies this, scheduler.repo
      ensures Snapshot() == After(old(Snapshot()), PersistLost(p))
    {
      var probe := probes[p];
      scheduler.repo.SetLastResult(probe.copy.check, probe.last);
      probes := probes - {p};
      results := results + [(probe.copy.check, probe.last.ok)];
    }

    /** The write is rejected: `probeAndHandle` logs the error, nothing else happens. */
    method PersistRejected(p: ProbeId)
      requires CanStep(Snapshot(), PersistFails(p))
      modifies this`probes
      ensures Snapshot() == After(old(Snapshot()), PersistFails(p))
    {
      probes := probes - {p};
    }

    /** The handler `initIncidentSubscriptions` registers; it runs inside the publish, up to its first await. */
    method OnProbeEvent(e: Event, op: OpId)
      requires op !in incidents.ops
      modifies incidents
      ensures incidents.Snapshot() == old(incidents.Snapshot()).(ops := old(incidents.ops)[op := Finding(RequestFor(e))])
    {
      if e.recovered {
        var _ := incidents.Begin(op, ResolveIncident(e.tenant, e.check));
      } else {
        var _ := incidents.Begin(op, OpenIncident(e.tenant, e.check));
      }
    }

    method EmitOnTenantChannel(t: TenantId, message: Message)
      modifies incidents`published
      ensures incidents.published == old(incidents.published) + [Publication(t, message)]
    {
      incidents.published := incidents.published + [Publication(t, message)];
    }

    /** After the write: update the copy, compare, publish on both channels. */
    method FinishResult(p: ProbeId, op: OpId)
      requires CanStep(Snapshot(), Publish(p, op))
      modifies this, incidents
      ensures Snapshot() == After(old(Snapshot()), Publish(p, op))
    {
      var probe := probes[p];
      var copy := probe.copy;
      probes := probes - {p};
      var filed := docs[copy.load];
      filed := filed[copy.check := filed[copy.check].(lastResult := Some(probe.last))];
      docs := docs[copy.load := filed];
      if probe.prevOk != Some(false) && !probe.last.ok {
        var e := Event(probe.tenant, copy.check, false);
        events := events + [e];
        OnProbeEvent(e, op);
        EmitOnTenantChannel(probe.tenant, CheckFailed(copy.check));
      } else if probe.prevOk == Some(false) && probe.last.ok {
        var e := Event(probe.tenant, copy.check, true);
        events := events + [e];
        OnProbeEvent(e, op);
        EmitOnTenantChannel(probe.tenant, CheckRecovered(copy.check));
      }
    }
  }
}

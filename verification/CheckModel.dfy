/**
 Checks, the tenant-scoped collection that holds them, and the probe verdict
 (src/modules/check/check.model.ts, check.repo.ts, check.service.ts).
 */
module CheckModel {
  import opened Common
  import opened IncidentModel

  datatype LastResult = LastResult(status: int, latencyMs: int, checkedAt: Time, ok: bool)

  datatype Check = Check(
    tenant: TenantId,
    name: string,
    url: string,
    expectedStatus: int,
    maxLatencyMs: int,
    enabled: bool,
    lastResult: Option<LastResult>)

  type Checks = map<CheckId, Check>

  type LoadId = nat

  /** One document object in the scheduler's memory: what load `load` returned for a check. */
  datatype Copy = Copy(load: LoadId, check: CheckId)

  datatype CheckDto = CheckDto(name: string, url: string, expectedStatus: int, maxLatencyMs: int, enabled: bool)

  datatype CheckPatch = CheckPatch(
    name: Option<string>,
    url: Option<string>,
    expectedStatus: Option<int>,
    maxLatencyMs: Option<int>,
    enabled: Option<bool>)

  datatype CheckRequest =
    | CreateCheck(tenant: TenantId, dto: CheckDto)
    | UpdateCheck(tenant: TenantId, id: CheckId, patch: CheckPatch)
    | RemoveCheck(tenant: TenantId, id: CheckId)
    | GetCheck(tenant: TenantId, id: CheckId)

  datatype CheckReply = CheckDocument(id: CheckId, check: Check) | CheckRemoved | CheckNotFound

  predicate OwnedCheck(m: Checks, t: TenantId, id: CheckId) {
    id in m && m[id].tenant == t
  }

  function NewCheck(t: TenantId, dto: CheckDto): Check {
    Check(t, dto.name, dto.url, dto.expectedStatus, dto.maxLatencyMs, dto.enabled, None)
  }

  function PatchedCheck(doc: Check, patch: CheckPatch): Check {
    doc.(
      name := if patch.name.Some? then patch.name.value else doc.name,
      url := if patch.url.Some? then patch.url.value else doc.url,
      expectedStatus := if patch.expectedStatus.Some? then patch.expectedStatus.value else doc.expectedStatus,
      maxLatencyMs := if patch.maxLatencyMs.Some? then patch.maxLatencyMs.value else doc.maxLatencyMs,
      enabled := if patch.enabled.Some? then patch.enabled.value else doc.enabled)
  }

  /** The collection after a request. */
  function ChecksAfter(m: Checks, req: CheckRequest, newId: CheckId): Checks {
    match req
    case CreateCheck(t, dto) => m[newId := NewCheck(t, dto)]
    case UpdateCheck(t, id, patch) => if OwnedCheck(m, t, id) then m[id := PatchedCheck(m[id], patch)] else m
    case RemoveCheck(t, id) => if OwnedCheck(m, t, id) then m - {id} else m
    case GetCheck(_, _) => m
  }

  /** The caller's answer. */
  function CheckReplyTo(m: Checks, req: CheckRequest, newId: CheckId): CheckReply {
    match req
    case CreateCheck(t, dto) => CheckDocument(newId, NewCheck(t, dto))
    case UpdateCheck(t, id, patch) =>
      if OwnedCheck(m, t, id) then CheckDocument(id, PatchedCheck(m[id], patch)) else CheckNotFound
    case RemoveCheck(t, id) => if OwnedCheck(m, t, id) then CheckRemoved else CheckNotFound
    case GetCheck(t, id) => if OwnedCheck(m, t, id) then CheckDocument(id, m[id]) else CheckNotFound
  }

  /** Will 'checks:changed' be published? Exactly for the requests that wrote a document. */
  predicate Signals(m: Checks, req: CheckRequest) {
    match req
    case CreateCheck(_, _) => true
    case UpdateCheck(t, id, _) => OwnedCheck(m, t, id)
    case RemoveCheck(t, id) => OwnedCheck(m, t, id)
    case GetCheck(_, _) => false
  }

  /** The collection after a probe wrote its result: no document, no effect. */
  function Recorded(m: Checks, c: CheckId, last: LastResult): Checks {
    if c in m then m[c := m[c].(lastResult := Some(last))] else m
  }

  datatype ProbeResult = ProbeResult(ok: bool, statusCode: int, latencyMs: int)

  /** The verdict on a response; `None` is a network failure. */
  function Verdict(check: Check, response: Option<int>, latencyMs: int): (r: ProbeResult)
    ensures r.ok <==> response == Some(check.expectedStatus) && latencyMs <= check.maxLatencyMs
    ensures (if response.Some? then response == Some(r.statusCode) else r.statusCode == 0) && r.latencyMs == latencyMs
  {
    match response
    case None => ProbeResult(false, 0, latencyMs)
    case Some(status) =>
      ProbeResult(status == check.expectedStatus && latencyMs <= check.maxLatencyMs, status, latencyMs)
  }

  // ----- What the requests do, field by field -----

  /** Apart from check `c`, nothing changes. */
  ghost predicate OthersKept(m: Checks, m': Checks, c: CheckId) {
    forall d | d != c :: (d in m' <==> d in m) && (d in m && d in m' ==> m'[d] == m[d])
  }

  /** A created check is the tenant's, holds what was asked for, and has no result yet; the caller gets it. */
  lemma CreatedAsAsked(m: Checks, t: TenantId, dto: CheckDto, newId: CheckId)
    requires newId !in m
    ensures var m' := ChecksAfter(m, CreateCheck(t, dto), newId);
            && OthersKept(m, m', newId) && newId in m'
            && m'[newId].tenant == t && m'[newId].name == dto.name && m'[newId].url == dto.url
            && m'[newId].expectedStatus == dto.expectedStatus && m'[newId].maxLatencyMs == dto.maxLatencyMs
            && m'[newId].enabled == dto.enabled && m'[newId].lastResult.None?
            && CheckReplyTo(m, CreateCheck(t, dto), newId) == CheckDocument(newId, m'[newId])
            && Signals(m, CreateCheck(t, dto))
  {
  }

  /** Is `now` what was asked for, if anything was, and `before` otherwise? */
  ghost predicate SetTo<T>(now: T, before: T, asked: Option<T>) {
    now == match asked { case Some(x) => x case None => before }
  }

  /**
   An update of an own check sets exactly the fields it names, and the caller gets the check as stored; nothing else
   changes. An update of any other check is not found and changes nothing.
   */
  lemma UpdatedAsAsked(m: Checks, t: TenantId, c: CheckId, patch: CheckPatch, newId: CheckId)
    ensures var req := UpdateCheck(t, c, patch);
            var m' := ChecksAfter(m, req, newId);
            if c in m && m[c].tenant == t then
              && OthersKept(m, m', c) && c in m'
              && SetTo(m'[c].name, m[c].name, patch.name) && SetTo(m'[c].url, m[c].url, patch.url)
              && SetTo(m'[c].expectedStatus, m[c].expectedStatus, patch.expectedStatus)
              && SetTo(m'[c].maxLatencyMs, m[c].maxLatencyMs, patch.maxLatencyMs)
              && SetTo(m'[c].enabled, m[c].enabled, patch.enabled)
              && m'[c].tenant == t && m'[c].lastResult == m[c].lastResult
              && CheckReplyTo(m, req, newId) == CheckDocument(c, m'[c]) && Signals(m, req)
            else m' == m && CheckReplyTo(m, req, newId) == CheckNotFound && !Signals(m, req)
  {
  }

  /** Removing an own check removes it and no other; reading one answers it and changes nothing. */
  lemma RemovedOrRead(m: Checks, t: TenantId, c: CheckId, newId: CheckId)
    ensures var (remove, get) := (RemoveCheck(t, c), GetCheck(t, c));
            && ChecksAfter(m, get, newId) == m && !Signals(m, get)
            && if c in m && m[c].tenant == t then
                 && OthersKept(m, ChecksAfter(m, remove, newId), c) && c !in ChecksAfter(m, remove, newId)
                 && CheckReplyTo(m, remove, newId) == CheckRemoved && Signals(m, remove)
                 && CheckReplyTo(m, get, newId) == CheckDocument(c, m[c])
               else
                 && ChecksAfter(m, remove, newId) == m && !Signals(m, remove)
                 && CheckReplyTo(m, remove, newId) == CheckNotFound && CheckReplyTo(m, get, newId) == CheckNotFound
  {
  }

  /** A written result changes the last result of its check and nothing else; no check comes or goes. */
  lemma RecordedSetsTheResult(m: Checks, c: CheckId, last: LastResult)
    ensures var m' := Recorded(m, c, last);
            && OthersKept(m, m', c) && (c in m' <==> c in m)
            && (c in m ==>
                  && m'[c].lastResult == Some(last) && m'[c].tenant == m[c].tenant
                  && m'[c].name == m[c].name && m'[c].url == m[c].url && m'[c].enabled == m[c].enabled
                  && m'[c].expectedStatus == m[c].expectedStatus && m'[c].maxLatencyMs == m[c].maxLatencyMs)
  {
  }

  /** The collection behind the check repository. */
  class CheckRepo {
    var docs: Checks

    constructor ()
      ensures docs == map[]
    {
      docs := map[];
    }

    /**
     `createCheck`, `updateCheck`, `removeCheck` and `getCheckById` up to their await: one database call. `signal` says
     that the code after the await is going to publish 'checks:changed'.
     */
    method Serve(req: CheckRequest, newId: CheckId) returns (reply: CheckReply, signal: bool)
      requires newId !in docs
      modifies this
      ensures docs == ChecksAfter(old(docs), req, newId)
      ensures reply == CheckReplyTo(old(docs), req, newId) && signal == Signals(old(docs), req)
    {
      match req
      case CreateCheck(t, dto) =>
        var doc := Check(t, dto.name, dto.url, dto.expectedStatus, dto.maxLatencyMs, dto.enabled, None);
        docs := docs[newId := doc];
        return CheckDocument(newId, doc), true;
      case UpdateCheck(t, id, patch) =>
        if !OwnedCheck(docs, t, id) {
          return CheckNotFound, false;
        }
        var doc := docs[id];
        if patch.name.Some? { doc := doc.(name := patch.name.value); }
        if patch.url.Some? { doc := doc.(url := patch.url.value); }
        if patch.expectedStatus.Some? { doc := doc.(expectedStatus := patch.expectedStatus.value); }
        if patch.maxLatencyMs.Some? { doc := doc.(maxLatencyMs := patch.maxLatencyMs.value); }
        if patch.enabled.Some? { doc := doc.(enabled := patch.enabled.value); }
        docs := docs[id := doc];
        return CheckDocument(id, doc), true;
      case RemoveCheck(t, id) =>
        if !OwnedCheck(docs, t, id) {
          return CheckNotFound, false;
        }
        docs := docs - {id};
        return CheckRemoved, true;
      case GetCheck(t, id) =>
        if !OwnedCheck(docs, t, id) {
          return CheckNotFound, false;
        }
        return CheckDocument(id, docs[id]), false;
    }

    /** The scheduler's write of a result, by id alone. */
    method SetLastResult(id: CheckId, last: LastResult)
      modifies this
      ensures docs == Recorded(old(docs), id, last)
    {
      if id in docs {
        docs := docs[id := docs[id].(lastResult := Some(last))];
      }
    }
  }
}

/**
 The list queries: filter, sort, slice
 (src/modules/incident/incident.repo.ts:46-92, src/modules/check/check.repo.ts:65-99,
 src/modules/audit/audit.service.ts:107-142).
 A database sort is taken as a deterministic total order; ties are broken by the identifier.
 */
module Listing {
  import opened Common
  import opened IncidentModel
  import opened IncidentEngine
  import opened CheckModel
  import opened Digits
  import opened Numerals
  import opened Paging
  import opened PagedRows

  // ----- Incidents -----

  datatype IncidentQuery = IncidentQuery(
    status: Option<Status>,
    check: Option<CheckId>,
    from: Option<Time>,
    to: Option<Time>,
    byOpening: bool,
    descending: bool,
    page: Option<string>,
    limit: Option<string>)

  /** The filter handed to the database, with the tenant always in it. */
  datatype IncidentFilter = IncidentFilter(
    tenant: TenantId, status: Option<Status>, check: Option<CheckId>, gte: Option<Time>, lte: Option<Time>)

  predicate Selects(f: IncidentFilter, doc: Incident) {
    && doc.tenant == f.tenant
    && (f.status.Some? ==> doc.status == f.status.value)
    && (f.check.Some? ==> doc.check == f.check.value)
    && (f.gte.Some? ==> doc.openedAt >= f.gte.value)
    && (f.lte.Some? ==> doc.openedAt <= f.lte.value)
  }

  predicate Wanted(t: TenantId, q: IncidentQuery, doc: Incident) {
    Selects(IncidentFilter(t, q.status, q.check, q.from, q.to), doc)
  }

  function IncidentKey(q: IncidentQuery, doc: Incident): int {
    var k := if q.byOpening then doc.openedAt else doc.lastChangeAt;
    if q.descending then -k else k
  }

  function IncidentKeys(m: Incidents, t: TenantId, q: IncidentQuery): Keys {
    map id | id in m && Wanted(t, q, m[id]) :: IncidentKey(q, m[id])
  }

  function ListIncidents(m: Incidents, t: TenantId, q: IncidentQuery): Rows<Incident> {
    Listed(m, IncidentKeys(m, t, q), RepoPagination(q.page, q.limit))
  }

  /** `findAll`: the filter is built part by part. */
  method FindAll(repo: IncidentRepo, t: TenantId, q: IncidentQuery) returns (rows: Rows<Incident>)
    ensures rows == ListIncidents(repo.docs, t, q)
  {
    var filter := IncidentFilter(t, None, None, None, None);
    if q.status.Some? {
      filter := filter.(status := q.status);
    }
    if q.check.Some? {
      filter := filter.(check := q.check);
    }
    if q.from.Some? || q.to.Some? {
      if q.from.Some? {
        filter := filter.(gte := q.from);
      }
      if q.to.Some? {
        filter := filter.(lte := q.to);
      }
    }
    var docs := repo.docs;
    var keys := map id | id in docs && Selects(filter, docs[id]) :: IncidentKey(q, docs[id]);
    assert keys == IncidentKeys(docs, t, q);
    rows := Listed(docs, keys, RepoPagination(q.page, q.limit));
  }

  // ----- Checks -----

  /** `matchesText` is the database's text search, `key` its sort field. */
  datatype CheckQuery = CheckQuery(
    enabled: Option<bool>,
    matchesText: Option<string -> bool>,
    key: Check -> int,
    descending: bool,
    page: Option<string>,
    limit: Option<string>)

  predicate WantedCheck(t: TenantId, q: CheckQuery, doc: Check) {
    && doc.tenant == t
    && (q.enabled.Some? ==> doc.enabled == q.enabled.value)
    && (q.matchesText.Some? ==> q.matchesText.value(doc.name))
  }

  function CheckKeys(m: Checks, t: TenantId, q: CheckQuery): Keys {
    map id | id in m && WantedCheck(t, q, m[id]) :: if q.descending then -q.key(m[id]) else q.key(m[id])
  }

  function ListChecks(m: Checks, t: TenantId, q: CheckQuery): Rows<Check> {
    Listed(m, CheckKeys(m, t, q), ParsePagination(q.page, q.limit))
  }

  // ----- Audit entries -----

  datatype AuditKind = OpenKind | ResolveKind | UpdateKind

  function KindOf(a: AuditAction): AuditKind {
    match a
    case OpenAction(_) => OpenKind
    case ResolveAction(_) => ResolveKind
    case UpdateAction(_, _, _) => UpdateKind
  }

  datatype AuditQuery = AuditQuery(
    from: Option<Time>,
    to: Option<Time>,
    kind: Option<AuditKind>,
    target: Option<IncidentId>,
    page: Option<int>,
    limit: Option<int>)

  predicate WantedEntry(q: AuditQuery, e: AuditEntry) {
    && (q.from.Some? ==> e.ts >= q.from.value)
    && (q.to.Some? ==> e.ts <= q.to.value)
    && (q.kind.Some? ==> KindOf(e.action) == q.kind.value)
    && (q.target.Some? ==> e.target == q.target.value)
  }

  /** The tenant's own entries, in the order they were appended. */
  function EntriesOfTenant(audit: seq<AuditEntry>, t: TenantId): seq<AuditEntry> {
    if audit == [] then []
    else
      var rest := EntriesOfTenant(audit[..|audit| - 1], t);
      if audit[|audit| - 1].tenant == t then rest + [audit[|audit| - 1]] else rest
  }

  /** Newest first. */
  function EntryKeys(own: seq<AuditEntry>, q: AuditQuery): Keys {
    map i: nat | i < |own| && WantedEntry(q, own[i]) :: -own[i].ts
  }

  /** Entries are identified by their position among those of their tenant. */
  function Numbered(own: seq<AuditEntry>): map<nat, AuditEntry> {
    map i: nat | i < |own| :: own[i]
  }

  function AuditSpec(page: Option<int>, limit: Option<int>): PageSpec {
    Spec(if page.Some? then page.value else DEFAULT_PAGE, if limit.Some? then limit.value else DEFAULT_LIMIT)
  }

  function QueryAudit(audit: seq<AuditEntry>, t: TenantId, q: AuditQuery): Rows<AuditEntry> {
    var own := EntriesOfTenant(audit, t);
    Listed(Numbered(own), EntryKeys(own, q), AuditSpec(q.page, q.limit))
  }

  // ----- Every page of an incident listing, put together -----

  /** The answers to the query for pages 1 to n, one after the other. */
  function IncidentPages(m: Incidents, t: TenantId, q: IncidentQuery, n: nat): seq<(IncidentId, Incident)> {
    if n == 0 then []
    else IncidentPages(m, t, q, n - 1) + ListIncidents(m, t, q.(page := Some(Decimal(n)))).items
  }

  lemma RepoIsProper(page: Option<string>, limit: Option<string>)
    ensures Proper(RepoPagination(page, limit))
  {
    QueryIsRead(page, limit);
  }

  lemma IncidentPageIs(m: Incidents, t: TenantId, q: IncidentQuery, k: nat)
    requires k > 0
    ensures ListIncidents(m, t, q.(page := Some(Decimal(k)))).items ==
            NthPage(RowsAt(m, Sorted(IncidentKeys(m, t, q))), RepoPagination(q.page, q.limit).limit, k)
  {
    var paged := q.(page := Some(Decimal(k)));
    var spec := RepoPagination(paged.page, paged.limit);
    assert IncidentKeys(m, t, paged) == IncidentKeys(m, t, q);
    RepoIsProper(paged.page, paged.limit);
    assert spec.page == k by { PageNumberIsRead(k); }
    ListedIsPage(m, IncidentKeys(m, t, q), spec);
  }

  lemma {:induction false} IncidentPagesAre(m: Incidents, t: TenantId, q: IncidentQuery, n: nat)
    ensures IncidentPages(m, t, q, n) ==
            Pages(RowsAt(m, Sorted(IncidentKeys(m, t, q))), RepoPagination(q.page, q.limit).limit, n)
  {
    if n > 0 {
      IncidentPagesAre(m, t, q, n - 1);
      IncidentPageIs(m, t, q, n);
    }
  }

  /** Does the incident belong to the tenant and meet every filter of the query? */
  ghost predicate Asked(t: TenantId, q: IncidentQuery, doc: Incident) {
    && doc.tenant == t
    && (q.status.Some? ==> doc.status == q.status.value)
    && (q.check.Some? ==> doc.check == q.check.value)
    && (q.from.Some? ==> q.from.value <= doc.openedAt)
    && (q.to.Some? ==> doc.openedAt <= q.to.value)
  }

  /** By opening or by last change, newest or oldest first. */
  ghost predicate InOrder(q: IncidentQuery, a: Incident, b: Incident) {
    if q.byOpening then
      if q.descending then a.openedAt >= b.openedAt else a.openedAt <= b.openedAt
    else
      if q.descending then a.lastChangeAt >= b.lastChangeAt else a.lastChangeAt <= b.lastChangeAt
  }

  lemma IncidentKeysAre(m: Incidents, t: TenantId, q: IncidentQuery)
    ensures IncidentKeys(m, t, q).Keys == set id | id in m && Asked(t, q, m[id])
  {
  }

  lemma {:induction false} IncidentsInOrder(m: Incidents, t: TenantId, q: IncidentQuery, all: seq<(IncidentId, Incident)>)
    requires Holds(all, m, IncidentKeys(m, t, q))
    ensures forall a, b | 0 <= a < b < |all| :: all[a].0 != all[b].0 && InOrder(q, all[a].1, all[b].1)
  {
    forall a, b | 0 <= a < b < |all|
      ensures all[a].0 != all[b].0 && InOrder(q, all[a].1, all[b].1)
    {
      assert Before(IncidentKeys(m, t, q), all[a].0, all[b].0);
    }
  }

  /**
   The answers to an incident query for all its pages, put together, hold each incident of the tenant that meets the
   filters exactly once, as stored, and no other, in the order asked for. `total` is their number, and the query itself
   is answered with the page it asks for.
   */
  lemma PagesListEveryIncidentOnce(m: Incidents, t: TenantId, q: IncidentQuery, n: nat)
    requires n * RepoPagination(q.page, q.limit).limit >= ListIncidents(m, t, q).total
    ensures var spec := RepoPagination(q.page, q.limit);
            var all := IncidentPages(m, t, q, n);
            && |all| == ListIncidents(m, t, q).total
            && spec.limit > 0 && spec.page > 0
            && ListIncidents(m, t, q).items == NthPage(all, spec.limit, spec.page)
            && Ids(all) == (set id | id in m && Asked(t, q, m[id]))
            && (forall i | 0 <= i < |all| :: all[i].0 in m && all[i].1 == m[all[i].0])
            && (forall a, b | 0 <= a < b < |all| :: all[a].0 != all[b].0 && InOrder(q, all[a].1, all[b].1))
  {
    RepoIsProper(q.page, q.limit);
    IncidentPagesAre(m, t, q, n);
    var keys := IncidentKeys(m, t, q);
    EnoughPages(m, keys, RepoPagination(q.page, q.limit), n);
    IncidentKeysAre(m, t, q);
    IncidentsInOrder(m, t, q, IncidentPages(m, t, q, n));
  }

  /** A listed row is a stored document of the tenant that meets every filter of the query. */
  lemma EveryRowMatches(m: Incidents, t: TenantId, q: IncidentQuery, row: (IncidentId, Incident))
    requires row in ListIncidents(m, t, q).items
    ensures Owned(m, t, row.0) && m[row.0] == row.1
    ensures q.status.Some? ==> row.1.status == q.status.value
    ensures q.check.Some? ==> row.1.check == q.check.value
    ensures (q.from.Some? ==> q.from.value <= row.1.openedAt) && (q.to.Some? ==> row.1.openedAt <= q.to.value)
  {
    var keys := IncidentKeys(m, t, q);
    RepoIsProper(q.page, q.limit);
    ListedIsPage(m, keys, RepoPagination(q.page, q.limit));
    AllRows(m, keys);
    assert row in RowsAt(m, Sorted(keys)) && row.0 in Ids(RowsAt(m, Sorted(keys)));
  }

  // ----- Every page of a check listing -----

  function CheckPages(m: Checks, t: TenantId, q: CheckQuery, n: nat): seq<(CheckId, Check)> {
    if n == 0 then []
    else CheckPages(m, t, q, n - 1) + ListChecks(m, t, q.(page := Some(Decimal(n)))).items
  }

  lemma ParsedIsProper(page: Option<string>, limit: Option<string>)
    ensures Proper(ParsePagination(page, limit))
  {
    QueryIsRead(page, limit);
  }

  lemma CheckPageIs(m: Checks, t: TenantId, q: CheckQuery, k: nat)
    requires k > 0
    ensures ListChecks(m, t, q.(page := Some(Decimal(k)))).items ==
            NthPage(RowsAt(m, Sorted(CheckKeys(m, t, q))), ParsePagination(q.page, q.limit).limit, k)
  {
    var paged := q.(page := Some(Decimal(k)));
    var spec := ParsePagination(paged.page, paged.limit);
    assert CheckKeys(m, t, paged) == CheckKeys(m, t, q);
    ParsedIsProper(paged.page, paged.limit);
    assert spec.page == k by { PageNumberIsRead(k); }
    ListedIsPage(m, CheckKeys(m, t, q), spec);
  }

  lemma {:induction false} CheckPagesAre(m: Checks, t: TenantId, q: CheckQuery, n: nat)
    ensures CheckPages(m, t, q, n) ==
            Pages(RowsAt(m, Sorted(CheckKeys(m, t, q))), ParsePagination(q.page, q.limit).limit, n)
  {
    if n > 0 {
      var rows, limit := RowsAt(m, Sorted(CheckKeys(m, t, q))), ParsePagination(q.page, q.limit).limit;
      CheckPagesAre(m, t, q, n - 1);
      CheckPageIs(m, t, q, n);
      assert Pages(rows, limit, n) == Pages(rows, limit, n - 1) + NthPage(rows, limit, n);
    }
  }

  ghost predicate AskedCheck(t: TenantId, q: CheckQuery, doc: Check) {
    && doc.tenant == t
    && (q.enabled.Some? ==> doc.enabled == q.enabled.value)
    && (q.matchesText.Some? ==> q.matchesText.value(doc.name))
  }

  ghost predicate ChecksInOrder(q: CheckQuery, a: Check, b: Check) {
    if q.descending then q.key(a) >= q.key(b) else q.key(a) <= q.key(b)
  }

  lemma CheckKeysAre(m: Checks, t: TenantId, q: CheckQuery)
    ensures CheckKeys(m, t, q).Keys == set id | id in m && AskedCheck(t, q, m[id])
  {
  }

  lemma {:induction false} ChecksComeInOrder(m: Checks, t: TenantId, q: CheckQuery, all: seq<(CheckId, Check)>)
    requires Holds(all, m, CheckKeys(m, t, q))
    ensures forall a, b | 0 <= a < b < |all| :: all[a].0 != all[b].0 && ChecksInOrder(q, all[a].1, all[b].1)
  {
    forall a, b | 0 <= a < b < |all|
      ensures all[a].0 != all[b].0 && ChecksInOrder(q, all[a].1, all[b].1)
    {
      assert Before(CheckKeys(m, t, q), all[a].0, all[b].0);
    }
  }

  /** The same for checks, with the text search and the sort field as given. */
  lemma PagesListEveryCheckOnce(m: Checks, t: TenantId, q: CheckQuery, n: nat)
    requires n * ParsePagination(q.page, q.limit).limit >= ListChecks(m, t, q).total
    ensures var spec := ParsePagination(q.page, q.limit);
            var all := CheckPages(m, t, q, n);
            && |all| == ListChecks(m, t, q).total
            && spec.limit > 0 && spec.page > 0
            && ListChecks(m, t, q).items == NthPage(all, spec.limit, spec.page)
            && Ids(all) == (set id | id in m && AskedCheck(t, q, m[id]))
            && (forall i | 0 <= i < |all| :: all[i].0 in m && all[i].1 == m[all[i].0])
            && (forall a, b | 0 <= a < b < |all| :: all[a].0 != all[b].0 && ChecksInOrder(q, all[a].1, all[b].1))
  {
    ParsedIsProper(q.page, q.limit);
    CheckPagesAre(m, t, q, n);
    var keys := CheckKeys(m, t, q);
    EnoughPages(m, keys, ParsePagination(q.page, q.limit), n);
    CheckKeysAre(m, t, q);
    ChecksComeInOrder(m, t, q, CheckPages(m, t, q, n));
  }

  // ----- Every page of the audit log -----

  /** The tenant's entries are those of the log, as often as they are there. */
  lemma {:induction false} OwnEntries(audit: seq<AuditEntry>, t: TenantId, e: AuditEntry)
    ensures multiset(EntriesOfTenant(audit, t))[e] == if e.tenant == t then multiset(audit)[e] else 0
  {
    if audit != [] {
      var front := audit[..|audit| - 1];
      OwnEntries(front, t, e);
      assert audit == front + [audit[|audit| - 1]];
    }
  }

  function AuditPages(audit: seq<AuditEntry>, t: TenantId, q: AuditQuery, n: nat): seq<(nat, AuditEntry)> {
    if n == 0 then [] else AuditPages(audit, t, q, n - 1) + QueryAudit(audit, t, q.(page := Some(n))).items
  }

  /** What a query of the log asks for: page 1 and 20 rows unless it says otherwise, and at most 100. */
  lemma AuditQueryIsRead(page: Option<int>, limit: Option<int>)
    ensures var spec := AuditSpec(page, limit);
            && spec.page == (if page.Some? && page.value >= 1 then page.value else 1)
            && spec.limit ==
               (match limit case Some(v) => (if v < 1 then 1 else if v > 100 then 100 else v) case None => 20)
            && spec.skip == (spec.page - 1) * spec.limit
            && Proper(spec)
  {
  }

  lemma {:induction false} AuditPageIs(audit: seq<AuditEntry>, t: TenantId, q: AuditQuery, k: nat)
    requires k > 0
    ensures var own := EntriesOfTenant(audit, t);
            QueryAudit(audit, t, q.(page := Some(k))).items ==
            NthPage(RowsAt(Numbered(own), Sorted(EntryKeys(own, q))), AuditSpec(q.page, q.limit).limit, k)
  {
    var own := EntriesOfTenant(audit, t);
    var paged := q.(page := Some(k));
    assert EntryKeys(own, paged) == EntryKeys(own, q);
    AuditQueryIsRead(paged.page, paged.limit);
    ListedIsPage(Numbered(own), EntryKeys(own, q), AuditSpec(paged.page, paged.limit));
  }

  lemma {:induction false} AuditPagesAre(audit: seq<AuditEntry>, t: TenantId, q: AuditQuery, n: nat)
    ensures var own := EntriesOfTenant(audit, t);
            AuditPages(audit, t, q, n) ==
            Pages(RowsAt(Numbered(own), Sorted(EntryKeys(own, q))), AuditSpec(q.page, q.limit).limit, n)
  {
    if n > 0 {
      AuditPagesAre(audit, t, q, n - 1);
      AuditPageIs(audit, t, q, n);
    }
  }

  ghost predicate AskedEntry(q: AuditQuery, e: AuditEntry) {
    && (q.from.Some? ==> q.from.value <= e.ts) && (q.to.Some? ==> e.ts <= q.to.value)
    && (q.target.Some? ==> e.target == q.target.value)
    && (q.kind.Some? ==> match q.kind.value
                         case OpenKind => e.action.OpenAction?
                         case ResolveKind => e.action.ResolveAction?
                         case UpdateKind => e.action.UpdateAction?)
  }

  lemma {:induction false} EntryKeysAre(own: seq<AuditEntry>, q: AuditQuery)
    ensures EntryKeys(own, q).Keys == set i: nat | i < |own| && AskedEntry(q, own[i])
  {
  }

  lemma {:induction false} EntriesInOrder(own: seq<AuditEntry>, q: AuditQuery, all: seq<(nat, AuditEntry)>)
    requires Holds(all, Numbered(own), EntryKeys(own, q))
    ensures forall a, b | 0 <= a < b < |all| :: all[a].0 != all[b].0 && all[a].1.ts >= all[b].1.ts
  {
    forall a, b | 0 <= a < b < |all|
      ensures all[a].0 != all[b].0 && all[a].1.ts >= all[b].1.ts
    {
      assert Before(EntryKeys(own, q), all[a].0, all[b].0);
    }
  }

  /** The same for the log: each entry of the tenant that meets the filters once, newest first. */
  lemma {:induction false} PagesListEveryEntryOnce(audit: seq<AuditEntry>, t: TenantId, q: AuditQuery, n: nat)
    requires n * AuditSpec(q.page, q.limit).limit >= QueryAudit(audit, t, q).total
    ensures var spec := AuditSpec(q.page, q.limit);
            var own, all := EntriesOfTenant(audit, t), AuditPages(audit, t, q, n);
            && |all| == QueryAudit(audit, t, q).total
            && spec.limit > 0 && spec.page > 0
            && QueryAudit(audit, t, q).items == NthPage(all, spec.limit, spec.page)
            && Ids(all) == (set i: nat | i < |own| && AskedEntry(q, own[i]))
            && (forall i | 0 <= i < |all| :: all[i].0 < |own| && all[i].1 == own[all[i].0])
            && (forall a, b | 0 <= a < b < |all| :: all[a].0 != all[b].0 && all[a].1.ts >= all[b].1.ts)
  {
    var own := EntriesOfTenant(audit, t);
    AuditQueryIsRead(q.page, q.limit);
    AuditPagesAre(audit, t, q, n);
    var keys := EntryKeys(own, q);
    EnoughPages(Numbered(own), keys, AuditSpec(q.page, q.limit), n);
    EntryKeysAre(own, q);
    EntriesInOrder(own, q, AuditPages(audit, t, q, n));
  }
}

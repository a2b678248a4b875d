/**
 Listings in general: sort the wanted documents, slice a page, count them
 (the `find().sort().skip().limit()` beside `countDocuments()` of src/modules/incident/incident.repo.ts:78-92,
 src/modules/check/check.repo.ts:88-99 and src/modules/audit/audit.service.ts:131-142).
 */
module PagedRows {
  import opened Common
  import opened Digits
  import opened Numerals
  import opened Paging

  /** A page of rows, each with its identifier, and the number of matching documents. */
  datatype Rows<T> = Rows(items: seq<(nat, T)>, total: nat)

  function Cut(order: seq<nat>, spec: PageSpec): seq<nat> {
    Slice(order, Max(0, spec.skip), Max(0, spec.limit))
  }

  function RowsAt<T>(m: map<nat, T>, ids: seq<nat>): seq<(nat, T)> {
    if ids == [] then []
    else (if ids[0] in m then [(ids[0], m[ids[0]])] else []) + RowsAt(m, ids[1..])
  }

  /** The page `spec` asks for of the documents `keys` is about, in the order of their keys, with their number. */
  function Listed<T>(m: map<nat, T>, keys: Keys, spec: PageSpec): Rows<T> {
    var order := Sorted(keys);
    Rows(RowsAt(m, Cut(order, spec)), |order|)
  }

  lemma {:induction false} RowsAtEach<T>(m: map<nat, T>, ids: seq<nat>)
    requires forall i | 0 <= i < |ids| :: ids[i] in m
    ensures |RowsAt(m, ids)| == |ids|
    ensures forall i | 0 <= i < |ids| :: RowsAt(m, ids)[i] == (ids[i], m[ids[i]])
  {
    if ids != [] {
      assert forall i | 0 <= i < |ids[1..]| :: ids[1..][i] == ids[i + 1];
      RowsAtEach(m, ids[1..]);
    }
  }

  lemma {:induction false} SortedLength(keys: Keys)
    ensures |Sorted(keys)| == |keys|
    decreases |keys|
  {
    if keys != map[] {
      var rest := keys - {First(keys)};
      assert keys.Keys == rest.Keys + {First(keys)};
      SortedLength(rest);
    }
  }

  lemma SortedIsStored<T>(m: map<nat, T>, keys: Keys)
    requires keys.Keys <= m.Keys
    ensures forall i | 0 <= i < |Sorted(keys)| :: Sorted(keys)[i] in keys && Sorted(keys)[i] in m
  {
    forall i | 0 <= i < |Sorted(keys)|
      ensures Sorted(keys)[i] in keys
    {
      SortedHas(keys, Sorted(keys)[i]);
    }
  }

  /** The identifiers of some rows. */
  function Ids<T>(rows: seq<(nat, T)>): set<nat> {
    set i | 0 <= i < |rows| :: rows[i].0
  }

  /** Are the rows documents as stored? */
  ghost predicate AsStored<T>(rows: seq<(nat, T)>, m: map<nat, T>) {
    forall i | 0 <= i < |rows| :: rows[i].0 in m && rows[i].1 == m[rows[i].0]
  }

  /** Is no document repeated, and no key smaller than the one before it? */
  ghost predicate Ordered<T>(rows: seq<(nat, T)>, keys: Keys) {
    forall a, b | 0 <= a < b < |rows| :: Before(keys, rows[a].0, rows[b].0)
  }

  predicate Before(keys: Keys, i: nat, j: nat) {
    i != j && i in keys && j in keys && keys[i] <= keys[j]
  }

  /** Do the rows hold each document `keys` is about once, as stored, in the order of the keys, and no other? */
  ghost predicate Holds<T>(rows: seq<(nat, T)>, m: map<nat, T>, keys: Keys) {
    |rows| == |keys| && Ids(rows) == keys.Keys && AsStored(rows, m) && Ordered(rows, keys)
  }

  lemma AllIds<T>(m: map<nat, T>, keys: Keys)
    requires keys.Keys <= m.Keys
    ensures Ids(RowsAt(m, Sorted(keys))) == keys.Keys
  {
    var order := Sorted(keys);
    var rows := RowsAt(m, order);
    SortedIsStored(m, keys);
    RowsAtEach(m, order);
    forall id
      ensures id in Ids(rows) <==> id in keys
    {
      SortedHas(keys, id);
      if id in keys {
        var i :| 0 <= i < |order| && order[i] == id;
        assert rows[i].0 == id;
      }
    }
  }

  lemma AllOrdered<T>(m: map<nat, T>, keys: Keys)
    requires keys.Keys <= m.Keys
    ensures Ordered(RowsAt(m, Sorted(keys)), keys)
  {
    SortedIsStored(m, keys);
    RowsAtEach(m, Sorted(keys));
    forall a, b | 0 <= a < b < |Sorted(keys)|
      ensures Before(keys, Sorted(keys)[a], Sorted(keys)[b])
    {
      SortedIsFaithful(keys, a, b);
    }
  }

  /** Sorting and fetching all rows does. */
  lemma AllRows<T>(m: map<nat, T>, keys: Keys)
    requires keys.Keys <= m.Keys
    ensures Holds(RowsAt(m, Sorted(keys)), m, keys)
  {
    SortedLength(keys);
    AllIds(m, keys);
    AllOrdered(m, keys);
    SortedIsStored(m, keys);
    RowsAtEach(m, Sorted(keys));
  }

  lemma {:induction false} RowsOfSlice<T>(m: map<nat, T>, ids: seq<nat>, skip: nat, limit: nat)
    requires forall i | 0 <= i < |ids| :: ids[i] in m
    ensures RowsAt(m, Slice(ids, skip, limit)) == Slice(RowsAt(m, ids), skip, limit)
  {
    var page := Slice(ids, skip, limit);
    var from := if skip <= |ids| then skip else |ids|;
    RowsAtEach(m, ids);
    assert forall i | 0 <= i < |page| :: page[i] == ids[from + i];
    RowsAtEach(m, page);
  }

  /** A page number and a limit, with the rows to skip before that page. */
  predicate Proper(spec: PageSpec) {
    spec.page > 0 && spec.limit > 0 && spec.skip == (spec.page - 1) * spec.limit
  }

  /** The listed rows are one page of all rows. */
  lemma ListedIsPage<T>(m: map<nat, T>, keys: Keys, spec: PageSpec)
    requires keys.Keys <= m.Keys && Proper(spec)
    ensures Listed(m, keys, spec).items == NthPage(RowsAt(m, Sorted(keys)), spec.limit, spec.page)
    ensures Listed(m, keys, spec).total == |keys|
  {
    assert spec.skip >= 0 by { MulMonotone(0, spec.page - 1, spec.limit); }
    SortedLength(keys);
    SortedIsStored(m, keys);
    RowsOfSlice(m, Sorted(keys), spec.skip, spec.limit);
  }

  /** A page number written in decimal is read back, by both readings. */
  lemma PageNumberIsRead(k: nat)
    requires k > 0
    ensures AllDigits(Decimal(k)) && Number(Decimal(k)) == Some(k) && ParseInt(Decimal(k)) == Some(k)
  {
    DecimalReadsBack(k);
    PlainForm(Decimal(k));
  }

  /** Enough pages put together hold everything, and a query is answered with one of them. */
  lemma EnoughPages<T>(m: map<nat, T>, keys: Keys, spec: PageSpec, n: nat)
    requires keys.Keys <= m.Keys && Proper(spec) && n * spec.limit >= Listed(m, keys, spec).total
    ensures var all := Pages(RowsAt(m, Sorted(keys)), spec.limit, n);
            && Holds(all, m, keys) && |all| == Listed(m, keys, spec).total
            && Listed(m, keys, spec).items == NthPage(all, spec.limit, spec.page)
  {
    var rows := RowsAt(m, Sorted(keys));
    AllRows(m, keys);
    ListedIsPage(m, keys, spec);
    PagesArePrefix(rows, spec.limit, n);
    assert rows[..|rows|] == rows;
  }
}

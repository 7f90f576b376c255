/** The persisted tables behind the browser storage adapter
    (src/adapters/web/storage-adapter.ts over src/db/index.ts): the POI cache
    keyed by POI id, and the single-row preferences and quota tables.

    The POI table is a sequence of rows with distinct ids; a put replaces the
    row with the same id in place or appends. Reads come back in table order.
    The clock and the distance approximation are parameters. */
module StorageAdapter {
  import opened Optional
  import opened PoiModel
  import opened Interfaces
  import Seqs

  /** `getCachedPOIs`'s default maximum age: 10 minutes in milliseconds. */
  const DefaultMaxAgeMs: int := 600000

  /** The three tables. */
  datatype Database = Database(pois: seq<CachedPoi>, preferences: Option<UserPreferences>, quota: Option<UsageQuota>)

  const EmptyDatabase: Database := Database([], None, None)

  /** The primary key of the POI table is the POI id. */
  predicate UniqueIds(table: seq<CachedPoi>) {
    forall i, j :: 0 <= i < j < |table| ==> table[i].poi.id != table[j].poi.id
  }

  /** `db.pois.get(id)`. */
  function Lookup(table: seq<CachedPoi>, id: string): (r: Option<CachedPoi>)
    ensures r.Some? ==> r.value in table && r.value.poi.id == id
    ensures r.None? ==> forall i :: 0 <= i < |table| ==> table[i].poi.id != id
  {
    if |table| == 0 then None
    else if table[0].poi.id == id then Some(table[0])
    else Lookup(table[1..], id)
  }

  /** `put` of one row: the row with the same id is replaced where it stands,
      otherwise the row is appended. */
  function Put(table: seq<CachedPoi>, row: CachedPoi): (r: seq<CachedPoi>)
    ensures Lookup(r, row.poi.id) == Some(row)
    ensures forall id :: id != row.poi.id ==> Lookup(r, id) == Lookup(table, id)
    ensures forall x :: x in r ==> x in table || x == row
  {
    if |table| == 0 then [row]
    else if table[0].poi.id == row.poi.id then [row] + table[1..]
    else
      var rest := Put(table[1..], row);
      [table[0]] + rest
  }

  /** A put keeps the ids distinct. */
  lemma {:induction false} PutKeepsUniqueIds(table: seq<CachedPoi>, row: CachedPoi)
    requires UniqueIds(table)
    ensures UniqueIds(Put(table, row))
    decreases |table|
  {
    if |table| > 0 && table[0].poi.id != row.poi.id {
      var rest := Put(table[1..], row);
      PutKeepsUniqueIds(table[1..], row);
      forall x | x in rest ensures x.poi.id != table[0].poi.id {
        if x != row {
          var k :| 0 <= k < |table[1..]| && table[1..][k] == x;
          assert table[k + 1] == x;
        }
      }
      var r := [table[0]] + rest;
      forall i, j | 0 <= i < j < |r| ensures r[i].poi.id != r[j].poi.id {
        if i == 0 {
          assert r[j] == rest[j - 1] && r[j] in rest;
        } else {
          assert r[i] == rest[i - 1] && r[j] == rest[j - 1];
        }
      }
    }
  }

  /** The last row of `rows` with the given id, if any. */
  function LastWithId(rows: seq<CachedPoi>, id: string): Option<CachedPoi>
    decreases |rows|
  {
    if |rows| == 0 then None
    else
      match LastWithId(rows[1..], id)
      case Some(r) => Some(r)
      case None => if rows[0].poi.id == id then Some(rows[0]) else None
  }

  /** `cachePOIs`: `bulkPut`, one put after the other. */
  function CachePois(table: seq<CachedPoi>, rows: seq<CachedPoi>): seq<CachedPoi>
    decreases |rows|
  {
    if |rows| == 0 then table else CachePois(Put(table, rows[0]), rows[1..])
  }

  /** After `cachePOIs`, each written id holds the last row written for it,
      every other id holds what it held before, and ids stay distinct. */
  lemma {:induction false} CachePoisUpserts(table: seq<CachedPoi>, rows: seq<CachedPoi>, id: string)
    ensures Lookup(CachePois(table, rows), id) ==
      (match LastWithId(rows, id) case Some(r) => Some(r) case None => Lookup(table, id))
    ensures UniqueIds(table) ==> UniqueIds(CachePois(table, rows))
    decreases |rows|
  {
    if |rows| > 0 {
      CachePoisUpserts(Put(table, rows[0]), rows[1..], id);
      if UniqueIds(table) {
        PutKeepsUniqueIds(table, rows[0]);
      }
    }
  }

  /** Every row of a batch is found under its own id afterwards, as the last
      row of the batch with that id. */
  lemma {:induction false} LastWithIdOfMember(rows: seq<CachedPoi>, k: int)
    requires 0 <= k < |rows|
    ensures LastWithId(rows, rows[k].poi.id).Some?
    ensures LastWithId(rows, rows[k].poi.id).value.poi.id == rows[k].poi.id
    ensures (forall j :: k < j < |rows| ==> rows[j].poi.id != rows[k].poi.id) ==>
      LastWithId(rows, rows[k].poi.id) == Some(rows[k])
    decreases |rows|
  {
    if k > 0 {
      LastWithIdOfMember(rows[1..], k - 1);
    } else {
      LastWithIdNone(rows[1..], rows[0].poi.id);
      LastWithIdSome(rows[1..], rows[0].poi.id);
    }
  }

  /** No later row with the id: nothing found among them. */
  lemma {:induction false} LastWithIdNone(rows: seq<CachedPoi>, id: string)
    ensures (forall j :: 0 <= j < |rows| ==> rows[j].poi.id != id) <==> LastWithId(rows, id).None?
    decreases |rows|
  {
    if |rows| > 0 {
      LastWithIdNone(rows[1..], id);
    }
  }

  /** What is found is a row of the batch carrying the id looked for. */
  lemma {:induction false} LastWithIdSome(rows: seq<CachedPoi>, id: string)
    ensures LastWithId(rows, id).Some? ==> LastWithId(rows, id).value.poi.id == id && LastWithId(rows, id).value in rows
    decreases |rows|
  {
    if |rows| > 0 {
      LastWithIdSome(rows[1..], id);
    }
  }

  /** The read window of `getCachedPOIs`: written strictly after
      `now - maxAge`, and searched from a centre within `radius` of the query
      point. The spatial test uses the row's search centre, not the POI's
      own location. */
  predicate InReadWindow(row: CachedPoi, lat: real, lng: real, radius: real, maxAge: int, now: int, approx: DistanceFn) {
    row.cachedAt > now - maxAge && approx(Coord(lat, lng), Coord(row.searchLat, row.searchLng)) <= radius
  }

  /** `getCachedPOIs`, with `maxAge` defaulting to 10 minutes. */
  function GetCachedPois(table: seq<CachedPoi>, lat: real, lng: real, radius: real, maxAge: Option<int>, now: int, approx: DistanceFn): seq<CachedPoi> {
    var age := maxAge.GetOr(DefaultMaxAgeMs);
    Seqs.Filter((row: CachedPoi) => InReadWindow(row, lat, lng, radius, age, now, approx), table)
  }

  /** The read returns exactly the rows in the window, in table order. */
  lemma GetCachedPoisExactly(table: seq<CachedPoi>, lat: real, lng: real, radius: real, maxAge: Option<int>, now: int, approx: DistanceFn, row: CachedPoi)
    ensures row in GetCachedPois(table, lat, lng, radius, maxAge, now, approx) <==>
      row in table && InReadWindow(row, lat, lng, radius, maxAge.GetOr(600000), now, approx)
    ensures Seqs.IsSubsequence(GetCachedPois(table, lat, lng, radius, maxAge, now, approx), table)
  {
    Seqs.FilterMembership((r: CachedPoi) => InReadWindow(r, lat, lng, radius, maxAge.GetOr(DefaultMaxAgeMs), now, approx), table, row);
    Seqs.FilterIsSubsequence((r: CachedPoi) => InReadWindow(r, lat, lng, radius, maxAge.GetOr(DefaultMaxAgeMs), now, approx), table);
  }

  /** `clearExpiredCache`: delete the rows written strictly before
      `now - maxAge`. */
  function ClearExpiredCache(table: seq<CachedPoi>, maxAge: int, now: int): seq<CachedPoi> {
    Seqs.Filter((row: CachedPoi) => !(row.cachedAt < now - maxAge), table)
  }

  /** The sweep removes exactly the expired rows; a row written at the cutoff
      itself is neither removed by the sweep nor returned by a read with the
      same age and clock. */
  lemma ClearExpiredCacheExactly(table: seq<CachedPoi>, maxAge: int, now: int, row: CachedPoi,
                                 lat: real, lng: real, radius: real, approx: DistanceFn)
    ensures row in ClearExpiredCache(table, maxAge, now) <==> row in table && row.cachedAt >= now - maxAge
    ensures row in table && row.cachedAt == now - maxAge ==>
      row in ClearExpiredCache(table, maxAge, now) && row !in GetCachedPois(table, lat, lng, radius, Some(maxAge), now, approx)
  {
    Seqs.FilterMembership((r: CachedPoi) => !(r.cachedAt < now - maxAge), table, row);
    GetCachedPoisExactly(table, lat, lng, radius, Some(maxAge), now, approx, row);
  }

  /** Sweeping with an age never changes what a read with the same age and
      clock returns: every row the read keeps survives the sweep. */
  lemma ClearExpiredKeepsReadable(table: seq<CachedPoi>, maxAge: int, now: int,
                                  lat: real, lng: real, radius: real, approx: DistanceFn)
    ensures GetCachedPois(ClearExpiredCache(table, maxAge, now), lat, lng, radius, Some(maxAge), now, approx)
         == GetCachedPois(table, lat, lng, radius, Some(maxAge), now, approx)
  {
    Seqs.FilterAbsorbs((row: CachedPoi) => InReadWindow(row, lat, lng, radius, maxAge, now, approx),
                       (row: CachedPoi) => !(row.cachedAt < now - maxAge), table);
  }

  /** `getPreferences`. */
  function GetPreferences(db: Database): Option<UserPreferences> {
    db.preferences
  }

  /** `savePreferences`: the single row is overwritten. */
  function SavePreferences(db: Database, p: UserPreferences): Database {
    db.(preferences := Some(p))
  }

  /** `getQuota`. */
  function GetQuota(db: Database): Option<UsageQuota> {
    db.quota
  }

  /** `updateQuota`: the single row is overwritten. */
  function UpdateQuota(db: Database, q: UsageQuota): Database {
    db.(quota := Some(q))
  }

  /** Writing a record and reading it back gives the record; an empty table
      reads as nothing; each write leaves the other tables alone. */
  lemma SingleRowRoundTrips(db: Database, p: UserPreferences, q: UsageQuota)
    ensures GetPreferences(SavePreferences(db, p)) == Some(p)
    ensures GetQuota(UpdateQuota(db, q)) == Some(q)
    ensures GetQuota(EmptyDatabase).None? && GetPreferences(EmptyDatabase).None?
    ensures SavePreferences(db, p).pois == db.pois && SavePreferences(db, p).quota == db.quota
    ensures UpdateQuota(db, q).pois == db.pois && UpdateQuota(db, q).preferences == db.preferences
    ensures GetQuota(UpdateQuota(UpdateQuota(db, q), q)) == GetQuota(UpdateQuota(db, q))
  {
  }
}

/**
 * The PostgreSQL tables the scrapers write and the API reads, held as
 * values: `models` and `providers` are maps from their unique key to the
 * row, `sync_log` is the sequence of appended rows. The SQL statements the
 * scrapers run become the methods of `Database`, each stated against a
 * function on the old table.
 */
module Storage {
  import opened Wrappers
  import opened Calendar
  import opened Json
  import opened UrlQuote

  /**
   * A timestamp column: the text `strftime("%Y-%m-%d %H:%M:%S")` renders,
   * either of a Unix epoch (`datetime.fromtimestamp(..., tz=utc)`) or of a
   * `datetime` value. The rendering itself is not modelled.
   */
  datatype Stamp = EpochStamp(epochSeconds: real) | MomentStamp(moment: Moment)

  /** One row of `models`, keyed by `model_id`. */
  datatype ModelRow = ModelRow(
    modelId: string,
    provider: string,
    modelName: string,
    description: string,
    tags: seq<string>,
    createdAt: Stamp,
    downloads: Option<int>,
    likes: Option<int>,
    modelCardUrl: string,
    insertedAt: Stamp,
    price: Option<map<string, Json>>,
    isOpenSource: Option<bool>,
    opencompassRank: Option<int>,
    huggingfaceRank: Option<int>)

  /** One row of `providers`, keyed by `provider_id`. */
  datatype ProviderRow = ProviderRow(
    displayName: string,
    avatarUrl: Option<string>,
    avatarBlob: Option<seq<Byte>>,
    avatarMime: Option<string>)

  /** One row of `sync_log`. */
  datatype SyncEntry = SyncEntry(
    provider: string,
    startedAt: Moment,
    finishedAt: Moment,
    status: string,
    processed: nat,
    inserted: nat,
    errorMessage: Option<string>)

  /** SQL `COALESCE(new, old)`. */
  function Coalesce<T>(incoming: Option<T>, stored: Option<T>): (r: Option<T>)
    ensures r.None? <==> incoming.None? && stored.None?
    ensures incoming.Some? ==> r == incoming
    ensures incoming.None? ==> r == stored
  {
    if incoming.Some? then incoming else stored
  }

  /**
   * The row an `ON CONFLICT (model_id) DO UPDATE` of the OpenRouter scraper
   * leaves: the incoming values win, except that a `NULL` price or rank
   * keeps the stored one, and `downloads` and `likes`, which the statement
   * does not set, stay as they were.
   */
  function Merge(stored: ModelRow, incoming: ModelRow): ModelRow {
    incoming.(
      downloads := stored.downloads,
      likes := stored.likes,
      price := Coalesce(incoming.price, stored.price),
      opencompassRank := Coalesce(incoming.opencompassRank, stored.opencompassRank),
      huggingfaceRank := Coalesce(incoming.huggingfaceRank, stored.huggingfaceRank))
  }

  /** `INSERT ... ON CONFLICT (model_id) DO NOTHING`. */
  function InsertIfAbsent(table: map<string, ModelRow>, row: ModelRow): map<string, ModelRow> {
    if row.modelId in table then table else table[row.modelId := row]
  }

  /** `INSERT ... ON CONFLICT (model_id) DO UPDATE SET ...`. */
  function Upsert(table: map<string, ModelRow>, row: ModelRow): map<string, ModelRow> {
    if row.modelId in table then table[row.modelId := Merge(table[row.modelId], row)]
    else table[row.modelId := row]
  }

  /** Inserting a row whose key is stored changes nothing; otherwise exactly that key is added. */
  lemma InsertIfAbsentSpec(table: map<string, ModelRow>, row: ModelRow)
    ensures row.modelId in table ==> InsertIfAbsent(table, row) == table
    ensures row.modelId !in table ==>
      && InsertIfAbsent(table, row).Keys == table.Keys + {row.modelId}
      && |InsertIfAbsent(table, row)| == |table| + 1
      && InsertIfAbsent(table, row)[row.modelId] == row
  {
  }

  /**
   * An upsert stores the key and keeps every other row. A new key stores the
   * incoming row as it is. A stored key takes every column the statement
   * sets from the incoming row, keeps its `downloads` and `likes`, which the
   * statement does not set, and keeps its price and ranks wherever the
   * incoming value is `NULL`.
   */
  lemma UpsertSpec(table: map<string, ModelRow>, row: ModelRow)
    ensures var t := Upsert(table, row);
      && t.Keys == table.Keys + {row.modelId}
      && (forall k :: k in table && k != row.modelId ==> t[k] == table[k])
      && (row.modelId !in table ==> t[row.modelId] == row)
      && var r := t[row.modelId];
      && r.modelId == row.modelId
      && r.provider == row.provider && r.modelName == row.modelName && r.description == row.description
      && r.tags == row.tags && r.createdAt == row.createdAt && r.modelCardUrl == row.modelCardUrl
      && r.insertedAt == row.insertedAt && r.isOpenSource == row.isOpenSource
      && (row.price.Some? ==> r.price == row.price)
      && (row.opencompassRank.Some? ==> r.opencompassRank == row.opencompassRank)
      && (row.huggingfaceRank.Some? ==> r.huggingfaceRank == row.huggingfaceRank)
      && (row.modelId in table ==>
        var prior := table[row.modelId];
        && r.downloads == prior.downloads && r.likes == prior.likes
        && (row.price.None? ==> r.price == prior.price)
        && (row.opencompassRank.None? ==> r.opencompassRank == prior.opencompassRank)
        && (row.huggingfaceRank.None? ==> r.huggingfaceRank == prior.huggingfaceRank))
  {
  }

  /** Running the same upsert twice leaves the table as running it once. */
  lemma UpsertIdempotent(table: map<string, ModelRow>, row: ModelRow)
    ensures Upsert(Upsert(table, row), row) == Upsert(table, row)
  {
    var k := row.modelId;
    if k in table {
      var m := Merge(table[k], row);
      assert Merge(m, row) == m;
    } else {
      assert Merge(row, row) == row;
    }
  }

  /** The table after inserting `rows` one by one, each only if its key is new. */
  function InsertAll(table: map<string, ModelRow>, rows: seq<ModelRow>): map<string, ModelRow>
    decreases |rows|
  {
    if rows == [] then table else InsertAll(InsertIfAbsent(table, rows[0]), rows[1..])
  }

  /** How many of `rows` an insert-if-absent loop reports as inserted (`cursor.rowcount` of 1). */
  function NewRowCount(table: map<string, ModelRow>, rows: seq<ModelRow>): nat
    decreases |rows|
  {
    if rows == [] then 0
    else (if rows[0].modelId in table then 0 else 1) + NewRowCount(InsertIfAbsent(table, rows[0]), rows[1..])
  }

  /** The keys carried by `rows`. */
  function Ids(rows: seq<ModelRow>): set<string>
    decreases |rows|
  {
    if rows == [] then {} else {rows[0].modelId} + Ids(rows[1..])
  }

  /** No row before index `i` carries the key of `rows[i]`. */
  predicate FirstWithKey(rows: seq<ModelRow>, i: nat)
    requires i < |rows|
  {
    forall j :: 0 <= j < i ==> rows[j].modelId != rows[i].modelId
  }

  /** Insert-if-absent adds exactly the keys of `rows` to those stored. */
  lemma {:induction false} InsertAllKeys(table: map<string, ModelRow>, rows: seq<ModelRow>)
    ensures InsertAll(table, rows).Keys == table.Keys + Ids(rows)
    decreases |rows|
  {
    if rows != [] {
      var t1 := InsertIfAbsent(table, rows[0]);
      InsertAllKeys(t1, rows[1..]);
      assert t1.Keys == table.Keys + {rows[0].modelId};
    }
  }

  /** Insert-if-absent never changes a stored row. */
  lemma {:induction false} InsertAllKeeps(table: map<string, ModelRow>, rows: seq<ModelRow>)
    ensures forall k :: k in table ==> k in InsertAll(table, rows) && InsertAll(table, rows)[k] == table[k]
    decreases |rows|
  {
    if rows != [] {
      var t1 := InsertIfAbsent(table, rows[0]);
      InsertAllKeeps(t1, rows[1..]);
      assert forall k :: k in table ==> k in t1 && t1[k] == table[k];
    }
  }

  /** The inserted count is the growth of the table, and at most the number of rows. */
  lemma {:induction false} InsertAllCount(table: map<string, ModelRow>, rows: seq<ModelRow>)
    ensures NewRowCount(table, rows) == |InsertAll(table, rows)| - |table|
    ensures NewRowCount(table, rows) <= |rows|
    decreases |rows|
  {
    if rows != [] {
      var t1 := InsertIfAbsent(table, rows[0]);
      InsertIfAbsentSpec(table, rows[0]);
      InsertAllCount(t1, rows[1..]);
    }
  }

  /** For a key the table did not hold, the row that ends up stored is the FIRST row carrying it. */
  lemma {:induction false} InsertAllFirstWins(table: map<string, ModelRow>, rows: seq<ModelRow>, i: nat)
    requires i < |rows| && rows[i].modelId !in table && FirstWithKey(rows, i)
    ensures rows[i].modelId in InsertAll(table, rows) && InsertAll(table, rows)[rows[i].modelId] == rows[i]
    decreases |rows|
  {
    var t1 := InsertIfAbsent(table, rows[0]);
    if i == 0 {
      InsertAllKeeps(t1, rows[1..]);
    } else {
      assert rows[0].modelId != rows[i].modelId;
      assert rows[1..][i - 1] == rows[i];
      assert FirstWithKey(rows[1..], i - 1) by {
        forall j | 0 <= j < i - 1 ensures rows[1..][j].modelId != rows[i].modelId {
          assert rows[1..][j] == rows[j + 1];
        }
      }
      InsertAllFirstWins(t1, rows[1..], i - 1);
    }
  }

  /** Inserting one more row extends the fold by one step: the loop form of `InsertAll`. */
  lemma {:induction false} InsertAllSnoc(table: map<string, ModelRow>, rows: seq<ModelRow>, row: ModelRow)
    ensures InsertAll(table, rows + [row]) == InsertIfAbsent(InsertAll(table, rows), row)
    ensures NewRowCount(table, rows + [row])
      == NewRowCount(table, rows) + (if row.modelId in InsertAll(table, rows) then 0 else 1)
    decreases |rows|
  {
    if rows == [] {
      assert rows + [row] == [row];
    } else {
      assert (rows + [row])[1..] == rows[1..] + [row];
      InsertAllSnoc(InsertIfAbsent(table, rows[0]), rows[1..], row);
    }
  }

  /** The upserts of `rows` one by one. */
  function UpsertAll(table: map<string, ModelRow>, rows: seq<ModelRow>): map<string, ModelRow>
    decreases |rows|
  {
    if rows == [] then table else UpsertAll(Upsert(table, rows[0]), rows[1..])
  }

  /** Upserting keeps every stored key, adds exactly the keys of `rows`, and never loses a known price. */
  lemma {:induction false} UpsertAllSpec(table: map<string, ModelRow>, rows: seq<ModelRow>)
    ensures var t := UpsertAll(table, rows);
      && t.Keys == table.Keys + Ids(rows)
      && (forall k :: k in table && k !in Ids(rows) ==> t[k] == table[k])
      && (forall k :: k in table && table[k].price.Some? ==> t[k].price.Some?)
    decreases |rows|
  {
    if rows != [] {
      var t1 := Upsert(table, rows[0]);
      UpsertSpec(table, rows[0]);
      UpsertAllSpec(t1, rows[1..]);
    }
  }

  /** Upserting one more row extends the fold by one step: the loop form of `UpsertAll`. */
  lemma {:induction false} UpsertAllSnoc(table: map<string, ModelRow>, rows: seq<ModelRow>, row: ModelRow)
    ensures UpsertAll(table, rows + [row]) == Upsert(UpsertAll(table, rows), row)
    decreases |rows|
  {
    if rows == [] {
      assert rows + [row] == [row];
    } else {
      assert (rows + [row])[1..] == rows[1..] + [row];
      UpsertAllSnoc(Upsert(table, rows[0]), rows[1..], row);
    }
  }

  /**
   * `upsert_provider`: a new provider gets the display name (the id when the
   * name is empty) and avatar URL;
   * a stored one gets the new display name, keeps its avatar URL when the
   * new one is `NULL`, and keeps its cached avatar.
   */
  function UpsertProviderRow(table: map<string, ProviderRow>, id: string, displayName: string, avatarUrl: Option<string>)
    : map<string, ProviderRow>
  {
    var name := if displayName != "" then displayName else id;
    if id in table then table[id := table[id].(displayName := name, avatarUrl := Coalesce(avatarUrl, table[id].avatarUrl))]
    else table[id := ProviderRow(name, avatarUrl, None, None)]
  }

  /**
   * After `upsert_provider` the provider is stored under the new display
   * name, every other provider is untouched, a known avatar URL is never
   * replaced by `NULL`, and a cached avatar survives.
   */
  lemma UpsertProviderSpec(table: map<string, ProviderRow>, id: string, displayName: string, avatarUrl: Option<string>)
    ensures var t := UpsertProviderRow(table, id, displayName, avatarUrl);
      && t.Keys == table.Keys + {id}
      && (forall k :: k in table && k != id ==> t[k] == table[k])
      && t[id].displayName == (if displayName != "" then displayName else id)
      && (displayName != "" || id != "" ==> t[id].displayName != "")
      && (avatarUrl.Some? ==> t[id].avatarUrl == avatarUrl)
      && (id in table ==> t[id].avatarBlob == table[id].avatarBlob && t[id].avatarMime == table[id].avatarMime)
      && (id in table && table[id].avatarUrl.Some? ==> t[id].avatarUrl.Some?)
      && (id !in table ==> t[id].avatarBlob.None?)
  {
  }

  class Database {
    var models: map<string, ModelRow>
    var providers: map<string, ProviderRow>
    var syncLog: seq<SyncEntry>

    /** A freshly created schema: every table empty. */
    constructor ()
      ensures models == map[] && providers == map[] && syncLog == []
    {
      models := map[];
      providers := map[];
      syncLog := [];
    }

    /** `INSERT INTO models ... ON CONFLICT (model_id) DO NOTHING`, returning `cursor.rowcount`. */
    method InsertModelIgnoringConflict(row: ModelRow) returns (rowcount: nat)
      modifies this`models
      ensures models == InsertIfAbsent(old(models), row)
      ensures rowcount == if row.modelId in old(models) then 0 else 1
    {
      if row.modelId in models {
        rowcount := 0;
      } else {
        models := models[row.modelId := row];
        rowcount := 1;
      }
    }

    /**
     * `INSERT INTO models ... ON CONFLICT (model_id) DO UPDATE`, returning
     * `cursor.rowcount`: PostgreSQL counts an updated row as affected, so
     * the count is 1 whether the key was new or not.
     */
    method UpsertModel(row: ModelRow) returns (rowcount: nat)
      modifies this`models
      ensures models == Upsert(old(models), row)
      ensures rowcount == 1
    {
      if row.modelId in models {
        models := models[row.modelId := Merge(models[row.modelId], row)];
      } else {
        models := models[row.modelId := row];
      }
      rowcount := 1;
    }

    /** `upsert_provider`. */
    method UpsertProvider(id: string, displayName: string, avatarUrl: Option<string>)
      modifies this`providers
      ensures providers == UpsertProviderRow(old(providers), id, displayName, avatarUrl)
    {
      providers := UpsertProviderRow(providers, id, displayName, avatarUrl);
    }

    /** `INSERT INTO sync_log ...`. */
    method AppendSyncLog(entry: SyncEntry)
      modifies this`syncLog
      ensures syncLog == old(syncLog) + [entry]
    {
      syncLog := syncLog + [entry];
    }

    /** `UPDATE providers SET avatar_blob = ..., avatar_mime = ... WHERE provider_id = ...`. */
    method CacheAvatar(id: string, content: seq<Byte>, mime: string)
      modifies this`providers
      ensures id in old(providers) ==>
        providers == old(providers)[id := old(providers)[id].(avatarBlob := Some(content), avatarMime := Some(mime))]
      ensures id !in old(providers) ==> providers == old(providers)
    {
      if id in providers {
        providers := providers[id := providers[id].(avatarBlob := Some(content), avatarMime := Some(mime))];
      }
    }
  }
}

/**
 * The Hugging Face scraper: the provider list from the `PROVIDERS` setting,
 * the conversion of a hub `ModelInfo` into a `models` row, the
 * insert-if-absent save loop with its `sync_log` entry, and the loop over
 * providers. The hub client is a parameter (`listing`), and so are the
 * clock readings.
 */
module HuggingFace {
  import opened Wrappers
  import opened Text
  import opened Calendar
  import opened Storage

  /** `get_providers`: comma-separated names, stripped, blanks dropped, case kept. */
  function GetProviders(raw: Option<string>): seq<string> {
    if !Given(raw) then [] else NonBlankStripped(Split(raw.value, ','))
  }

  /**
   * Nothing for a missing or empty setting; otherwise each provider is the
   * stripped form of a comma-separated piece, non-blank, without a comma.
   */
  lemma GetProvidersSpec(raw: Option<string>)
    ensures !Given(raw) ==> GetProviders(raw) == []
    ensures var ps := GetProviders(raw);
      forall k :: 0 <= k < |ps| ==> ps[k] != "" && IsStripped(ps[k]) && ',' !in ps[k]
  {
    if Given(raw) {
      SplitPiecesFree(raw.value, ',');
      NonBlankStrippedWithout(Split(raw.value, ','), ',');
    }
  }

  /** Writing a list of clean provider names joined by commas reads the same list back. */
  lemma GetProvidersJoin(ps: seq<string>)
    requires forall k :: 0 <= k < |ps| ==> ps[k] != "" && IsStripped(ps[k]) && ',' !in ps[k]
    ensures GetProviders(Some(Join(ps, ","))) == ps
  {
    SplitCleanJoin(ps, ',');
    JoinIsStripped(ps, ",");
    StripOfStripped(Join(ps, ","));
  }

  /**
   * `normalise_datetime`: a missing value is the current time (`now`, read
   * in UTC), a naive value is taken to be UTC already, and an aware value is
   * converted to UTC.
   */
  function NormaliseDatetime(value: Option<Moment>, now: Moment): (r: Moment)
    requires IsUtc(now)
    ensures IsUtc(r)
  {
    var v := if value.None? then now else value.value;
    var aware := if v.zone.Naive? then Moment(v.local, Offset(0)) else v;
    Moment(Instant(aware), Offset(0))
  }

  /**
   * A naive value keeps its wall-clock reading, an aware value keeps the
   * instant it denotes, a missing value becomes `now`, and normalising a
   * normalised value changes nothing.
   */
  lemma NormaliseDatetimeSpec(value: Option<Moment>, now: Moment)
    requires IsUtc(now)
    ensures var r := NormaliseDatetime(value, now);
      && (value.None? ==> r == now)
      && (value.Some? && value.value.zone.Naive? ==> r.local == value.value.local)
      && (value.Some? && value.value.zone.Offset? ==> Instant(r) == Instant(value.value))
      && NormaliseDatetime(Some(r), now) == r
  {
  }

  /** The attributes of a hub `ModelInfo` the scraper reads; `None` for an absent or `None` attribute. */
  datatype HfInfo = HfInfo(
    modelId: string,
    cardSummary: Option<string>,
    cardDescription: Option<string>,
    description: Option<string>,
    tags: Option<seq<string>>,
    createdAt: Option<Moment>,
    lastModified: Option<Moment>,
    downloads: Option<int>,
    likes: Option<int>)

  const CardUrlPrefix: string := "https://huggingface.co/"
  const DescriptionLimit: nat := 300

  /** `summary or description or ""` from the card data, then the model's own description if that is empty. */
  function DescriptionOf(info: HfInfo): string {
    var card :=
      if Given(info.cardSummary) then info.cardSummary.value
      else if Given(info.cardDescription) then info.cardDescription.value
      else "";
    if card == "" && Given(info.description) then info.description.value else card
  }

  /**
   * `to_record`: the row the scraper inserts for `info`. The columns the
   * statement does not name (price, open-source flag, ranks) are `NULL`.
   */
  function ToRecord(provider: string, info: HfInfo, now: Moment): ModelRow
    requires IsUtc(now)
  {
    ModelRow(
      info.modelId,
      provider,
      AfterLast(info.modelId, '/'),
      Take(DescriptionOf(info), DescriptionLimit),
      if info.tags.Some? then info.tags.value else [],
      MomentStamp(NormaliseDatetime(if info.createdAt.Some? then info.createdAt else info.lastModified, now)),
      info.downloads,
      info.likes,
      CardUrlPrefix + info.modelId,
      MomentStamp(NormaliseDatetime(Some(now), now)),
      None, None, None, None)
  }

  /**
   * What `to_record` promises of the identity columns: the key is the hub
   * id, the name is the text after its last `/` (all of it when there is
   * none), and the card URL is the hub page of the id.
   */
  lemma ToRecordIdentity(provider: string, info: HfInfo, now: Moment)
    requires IsUtc(now)
    ensures var r := ToRecord(provider, info, now);
      && r.modelId == info.modelId && r.provider == provider
      && '/' !in r.modelName && info.modelId == info.modelId[..|info.modelId| - |r.modelName|] + r.modelName
      && ('/' in info.modelId ==> info.modelId[|info.modelId| - |r.modelName| - 1] == '/')
      && ('/' !in info.modelId ==> r.modelName == info.modelId)
      && r.modelCardUrl[..|CardUrlPrefix|] == CardUrlPrefix && r.modelCardUrl[|CardUrlPrefix|..] == info.modelId
  {
    var r := ToRecord(provider, info, now);
    assert r.modelName == AfterLast(info.modelId, '/');
    assert r.modelCardUrl == CardUrlPrefix + info.modelId;
  }

  /**
   * The description is the card's summary, else the card's description,
   * else the model's own description, else empty, cut to its first 300
   * characters.
   */
  lemma ToRecordDescription(provider: string, info: HfInfo, now: Moment)
    requires IsUtc(now)
    ensures var r := ToRecord(provider, info, now);
      && |r.description| <= DescriptionLimit && r.description <= DescriptionOf(info)
      && (|DescriptionOf(info)| <= DescriptionLimit ==> r.description == DescriptionOf(info))
      && (|DescriptionOf(info)| > DescriptionLimit ==> |r.description| == DescriptionLimit)
      && (Given(info.cardSummary) ==> DescriptionOf(info) == info.cardSummary.value)
      && (!Given(info.cardSummary) && Given(info.cardDescription) ==> DescriptionOf(info) == info.cardDescription.value)
      && (!Given(info.cardSummary) && !Given(info.cardDescription) ==>
            DescriptionOf(info) == (if Given(info.description) then info.description.value else ""))
  {
  }

  /**
   * The creation time is `created_at`, else `lastModified`, else now, in
   * UTC; the insertion time is now.
   */
  lemma ToRecordTimes(provider: string, info: HfInfo, now: Moment)
    requires IsUtc(now)
    ensures var r := ToRecord(provider, info, now);
      && r.createdAt.MomentStamp? && IsUtc(r.createdAt.moment)
      && (info.createdAt.Some? ==> r.createdAt.moment == NormaliseDatetime(info.createdAt, now))
      && (info.createdAt.None? && info.lastModified.Some? ==> r.createdAt.moment == NormaliseDatetime(info.lastModified, now))
      && (info.createdAt.None? && info.lastModified.None? ==> r.createdAt.moment == now)
      && r.insertedAt == MomentStamp(now)
  {
  }

  /**
   * `save_models`: each record is inserted unless its key is stored,
   * `inserted` counts the inserts, and one `sync_log` entry with status
   * "success" and the same counts is appended. `finishedAt` is the clock
   * reading taken after the loop.
   */
  method SaveModels(db: Database, provider: string, records: seq<ModelRow>, startedAt: Moment, finishedAt: Moment)
    returns (processed: nat, inserted: nat)
    modifies db`models, db`syncLog
    ensures processed == |records|
    ensures inserted == NewRowCount(old(db.models), records)
    ensures db.models == InsertAll(old(db.models), records)
    ensures db.syncLog == old(db.syncLog) + [SyncEntry(provider, startedAt, finishedAt, "success", processed, inserted, None)]
  {
    processed := 0;
    inserted := 0;
    var i := 0;
    while i < |records|
      invariant 0 <= i <= |records|
      invariant processed == i
      invariant db.models == InsertAll(old(db.models), records[..i])
      invariant inserted == NewRowCount(old(db.models), records[..i])
      invariant db.syncLog == old(db.syncLog)
    {
      InsertAllSnoc(old(db.models), records[..i], records[i]);
      assert records[..i + 1] == records[..i] + [records[i]];
      processed := processed + 1;
      var rowcount := db.InsertModelIgnoringConflict(records[i]);
      if rowcount != 0 {
        inserted := inserted + 1;
      }
      i := i + 1;
    }
    assert records[..i] == records;
    db.AppendSyncLog(SyncEntry(provider, startedAt, finishedAt, "success", processed, inserted, None));
  }

  /**
   * The counts `save_models` reports: every record is processed, at most
   * that many are inserted, the inserts are exactly the growth of the
   * table, and no stored row changes.
   */
  lemma SaveCounts(table: map<string, ModelRow>, records: seq<ModelRow>)
    ensures NewRowCount(table, records) <= |records|
    ensures NewRowCount(table, records) == |InsertAll(table, records)| - |table|
    ensures forall k :: k in table ==> k in InsertAll(table, records) && InsertAll(table, records)[k] == table[k]
  {
    InsertAllKeeps(table, records);
    InsertAllCount(table, records);
  }

  /**
   * Three records where the third repeats the first key, saved into an
   * empty table: three processed, two inserted, two rows, and the first
   * record's row is the one kept.
   */
  lemma DuplicateKeepsFirst(a: ModelRow, b: ModelRow, c: ModelRow)
    requires a.modelId == c.modelId && a.modelId != b.modelId
    ensures NewRowCount(map[], [a, b, c]) == 2
    ensures |InsertAll(map[], [a, b, c])| == 2
    ensures a.modelId in InsertAll(map[], [a, b, c]) && InsertAll(map[], [a, b, c])[a.modelId] == a
  {
    var rows := [a, b, c];
    InsertAllKeys(map[], rows);
    InsertAllCount(map[], rows);
    assert Ids(rows) == {a.modelId, b.modelId} by {
      assert [c][1..] == [];
      assert Ids([c]) == {c.modelId};
      assert [b, c][1..] == [c];
      assert Ids([b, c]) == {b.modelId, c.modelId};
      assert rows[1..] == [b, c];
    }
    assert FirstWithKey(rows, 0);
    InsertAllFirstWins(map[], rows, 0);
  }

  /** The `models` rows `to_record` makes from one provider's listing. */
  function Records(provider: string, infos: seq<HfInfo>, now: Moment): (r: seq<ModelRow>)
    requires IsUtc(now)
    ensures |r| == |infos|
  {
    seq(|infos|, k requires 0 <= k < |infos| => ToRecord(provider, infos[k], now))
  }

  const ProvidersMissing: string := "PROVIDERS is not configured. Set it in environment or .env file."

  /**
   * One provider's turn in `fetch_and_store`: its listing becomes records
   * and is saved. Every listed model is processed, the inserted count and
   * the new table are those of inserting the records one by one, and one
   * "success" entry with the same counts is logged.
   */
  method StoreProvider(db: Database, provider: string, infos: seq<HfInfo>, now: Moment)
    returns (processed: nat, inserted: nat)
    requires IsUtc(now)
    modifies db`models, db`syncLog
    ensures processed == |infos| && inserted <= processed
    ensures inserted == NewRowCount(old(db.models), Records(provider, infos, now))
    ensures db.models == InsertAll(old(db.models), Records(provider, infos, now))
    ensures db.syncLog == old(db.syncLog) + [SyncEntry(provider, now, now, "success", processed, inserted, None)]
  {
    var records := Records(provider, infos, now);
    SaveCounts(db.models, records);
    processed, inserted := SaveModels(db, provider, records, now, now);
  }

  /** The records of one provider's run: its listing turned into rows. */
  function Batch(provider: string, listing: (string, int) -> seq<HfInfo>, limit: int, now: Moment): seq<ModelRow>
    requires IsUtc(now)
  {
    Records(provider, listing(provider, limit), now)
  }

  /** The `models` table after the runs of `ps`, one provider after the other, starting from `table`. */
  function ModelsAfter(table: map<string, ModelRow>, ps: seq<string>, listing: (string, int) -> seq<HfInfo>, limit: int, now: Moment)
    : map<string, ModelRow>
    requires IsUtc(now)
    decreases |ps|
  {
    if ps == [] then table
    else InsertAll(ModelsAfter(table, ps[..|ps| - 1], listing, limit, now), Batch(ps[|ps| - 1], listing, limit, now))
  }

  /** The `sync_log` entry of a provider's run that starts on `table`. */
  function RunEntry(table: map<string, ModelRow>, provider: string, listing: (string, int) -> seq<HfInfo>, limit: int, now: Moment)
    : SyncEntry
    requires IsUtc(now)
  {
    SyncEntry(provider, now, now, "success", |listing(provider, limit)|, NewRowCount(table, Batch(provider, listing, limit, now)), None)
  }

  /** The `sync_log` entries the runs of `ps` append, in order. */
  function LogAfter(table: map<string, ModelRow>, ps: seq<string>, listing: (string, int) -> seq<HfInfo>, limit: int, now: Moment)
    : seq<SyncEntry>
    requires IsUtc(now)
    decreases |ps|
  {
    if ps == [] then []
    else
      var before := ps[..|ps| - 1];
      LogAfter(table, before, listing, limit, now) + [RunEntry(ModelsAfter(table, before, listing, limit, now), ps[|ps| - 1], listing, limit, now)]
  }

  /** The `results` dictionary after the runs of `ps`: each provider's counts from its last run. */
  function ResultsAfter(table: map<string, ModelRow>, ps: seq<string>, listing: (string, int) -> seq<HfInfo>, limit: int, now: Moment)
    : map<string, (nat, nat)>
    requires IsUtc(now)
    decreases |ps|
  {
    if ps == [] then map[]
    else
      var before := ps[..|ps| - 1];
      var e := RunEntry(ModelsAfter(table, before, listing, limit, now), ps[|ps| - 1], listing, limit, now);
      ResultsAfter(table, before, listing, limit, now)[ps[|ps| - 1] := (e.processed, e.inserted)]
  }

  /** The run of `ps[i]` extends the table left by the runs of `ps[..i]`. */
  lemma ModelsAfterStep(table: map<string, ModelRow>, ps: seq<string>, i: nat, listing: (string, int) -> seq<HfInfo>, limit: int, now: Moment)
    requires IsUtc(now) && i < |ps|
    ensures ModelsAfter(table, ps[..i + 1], listing, limit, now)
      == InsertAll(ModelsAfter(table, ps[..i], listing, limit, now), Batch(ps[i], listing, limit, now))
  {
    assert ps[..i + 1][..i] == ps[..i];
  }

  /** The run of `ps[i]` appends its entry to the log of the runs of `ps[..i]`. */
  lemma LogAfterStep(table: map<string, ModelRow>, ps: seq<string>, i: nat, listing: (string, int) -> seq<HfInfo>, limit: int, now: Moment)
    requires IsUtc(now) && i < |ps|
    ensures LogAfter(table, ps[..i + 1], listing, limit, now)
      == LogAfter(table, ps[..i], listing, limit, now) + [RunEntry(ModelsAfter(table, ps[..i], listing, limit, now), ps[i], listing, limit, now)]
  {
    assert ps[..i + 1][..i] == ps[..i];
  }

  /** The run of `ps[i]` records its counts over the results of the runs of `ps[..i]`. */
  lemma ResultsAfterStep(table: map<string, ModelRow>, ps: seq<string>, i: nat, listing: (string, int) -> seq<HfInfo>, limit: int, now: Moment)
    requires IsUtc(now) && i < |ps|
    ensures var e := RunEntry(ModelsAfter(table, ps[..i], listing, limit, now), ps[i], listing, limit, now);
      ResultsAfter(table, ps[..i + 1], listing, limit, now)
      == ResultsAfter(table, ps[..i], listing, limit, now)[ps[i] := (e.processed, e.inserted)]
  {
    assert ps[..i + 1][..i] == ps[..i];
  }

  /** The results name exactly the providers that ran. */
  lemma {:induction false} ResultsAfterKeys(table: map<string, ModelRow>, ps: seq<string>, listing: (string, int) -> seq<HfInfo>, limit: int, now: Moment)
    requires IsUtc(now)
    ensures forall p :: p in ResultsAfter(table, ps, listing, limit, now) <==> p in ps
    decreases |ps|
  {
    if ps != [] {
      var before := ps[..|ps| - 1];
      ResultsAfterKeys(table, before, listing, limit, now);
      assert forall p :: p in ps <==> p in before || p == ps[|ps| - 1] by {
        assert ps == before + [ps[|ps| - 1]];
      }
    }
  }

  /** Each provider's result is its listing size as processed and at most that many inserted. */
  lemma {:induction false} ResultsAfterCounts(table: map<string, ModelRow>, ps: seq<string>, listing: (string, int) -> seq<HfInfo>, limit: int, now: Moment)
    requires IsUtc(now)
    ensures var res := ResultsAfter(table, ps, listing, limit, now);
      forall p :: p in res ==> res[p].0 == |listing(p, limit)| && res[p].1 <= res[p].0
    decreases |ps|
  {
    if ps != [] {
      var before := ps[..|ps| - 1];
      ResultsAfterCounts(table, before, listing, limit, now);
      InsertAllCount(ModelsAfter(table, before, listing, limit, now), Batch(ps[|ps| - 1], listing, limit, now));
    }
  }

  /** No run changes a row that was stored before it. */
  lemma {:induction false} ModelsAfterKeeps(table: map<string, ModelRow>, ps: seq<string>, listing: (string, int) -> seq<HfInfo>, limit: int, now: Moment)
    requires IsUtc(now)
    ensures var t := ModelsAfter(table, ps, listing, limit, now);
      forall k :: k in table ==> k in t && t[k] == table[k]
    decreases |ps|
  {
    if ps != [] {
      var before := ps[..|ps| - 1];
      ModelsAfterKeeps(table, before, listing, limit, now);
      InsertAllKeeps(ModelsAfter(table, before, listing, limit, now), Batch(ps[|ps| - 1], listing, limit, now));
    }
  }

  /** One turn of the loop of `fetch_and_store`: the run of `providers[i]` after those of `providers[..i]`. */
  method StoreNext(db: Database, ghost table: map<string, ModelRow>, ghost log: seq<SyncEntry>, providers: seq<string>, i: nat,
                   results: map<string, (nat, nat)>, listing: (string, int) -> seq<HfInfo>, limit: int, now: Moment)
    returns (next: map<string, (nat, nat)>)
    requires IsUtc(now) && i < |providers|
    requires results == ResultsAfter(table, providers[..i], listing, limit, now)
    requires db.models == ModelsAfter(table, providers[..i], listing, limit, now)
    requires db.syncLog == log + LogAfter(table, providers[..i], listing, limit, now)
    modifies db`models, db`syncLog
    ensures next == ResultsAfter(table, providers[..i + 1], listing, limit, now)
    ensures db.models == ModelsAfter(table, providers[..i + 1], listing, limit, now)
    ensures db.syncLog == log + LogAfter(table, providers[..i + 1], listing, limit, now)
  {
    var provider := providers[i];
    ModelsAfterStep(table, providers, i, listing, limit, now);
    LogAfterStep(table, providers, i, listing, limit, now);
    ResultsAfterStep(table, providers, i, listing, limit, now);
    ghost var e := RunEntry(db.models, provider, listing, limit, now);
    var processed, inserted := StoreProvider(db, provider, listing(provider, limit), now);
    assert SyncEntry(provider, now, now, "success", processed, inserted, None) == e;
    next := results[provider := (processed, inserted)];
  }

  /** The loop of `fetch_and_store`: each provider's run in turn, its counts kept in `results`. */
  method StoreProviders(db: Database, providers: seq<string>, listing: (string, int) -> seq<HfInfo>, limit: int, now: Moment)
    returns (results: map<string, (nat, nat)>)
    requires IsUtc(now)
    modifies db`models, db`syncLog
    ensures results == ResultsAfter(old(db.models), providers, listing, limit, now)
    ensures db.models == ModelsAfter(old(db.models), providers, listing, limit, now)
    ensures db.syncLog == old(db.syncLog) + LogAfter(old(db.models), providers, listing, limit, now)
  {
    results := map[];
    var i := 0;
    while i < |providers|
      invariant 0 <= i <= |providers|
      invariant results == ResultsAfter(old(db.models), providers[..i], listing, limit, now)
      invariant db.models == ModelsAfter(old(db.models), providers[..i], listing, limit, now)
      invariant db.syncLog == old(db.syncLog) + LogAfter(old(db.models), providers[..i], listing, limit, now)
    {
      results := StoreNext(db, old(db.models), old(db.syncLog), providers, i, results, listing, limit, now);
      i := i + 1;
    }
    assert providers[..i] == providers;
  }

  /**
   * `fetch_and_store`: fails when no provider is configured; otherwise
   * lists each provider's models (`listing` stands for
   * `HfApi.list_models(author=provider, limit=limit, ...)`), saves them,
   * and reports `(processed, inserted)` per provider. A provider named
   * twice keeps the counts of its last run. `now` stands for every clock
   * reading of the run.
   */
  method FetchAndStore(db: Database, raw: Option<string>, limit: int, listing: (string, int) -> seq<HfInfo>, now: Moment)
    returns (r: Result<map<string, (nat, nat)>>)
    requires IsUtc(now)
    modifies db`models, db`syncLog
    ensures r.Err? <==> GetProviders(raw) == []
    ensures r.Err? ==> r.error == ProvidersMissing && db.models == old(db.models) && db.syncLog == old(db.syncLog)
    ensures r.Ok? ==> r.value == ResultsAfter(old(db.models), GetProviders(raw), listing, limit, now)
    ensures r.Ok? ==> db.models == ModelsAfter(old(db.models), GetProviders(raw), listing, limit, now)
    ensures r.Ok? ==> db.syncLog == old(db.syncLog) + LogAfter(old(db.models), GetProviders(raw), listing, limit, now)
    ensures r.Ok? ==> forall p :: p in r.value <==> p in GetProviders(raw)
    ensures r.Ok? ==> forall p :: p in r.value ==> r.value[p].0 == |listing(p, limit)| && r.value[p].1 <= r.value[p].0
    ensures forall k :: k in old(db.models) ==> k in db.models && db.models[k] == old(db.models)[k]
  {
    var providers := GetProviders(raw);
    if providers == [] {
      return Err(ProvidersMissing);
    }
    var results := StoreProviders(db, providers, listing, limit, now);
    ResultsAfterKeys(old(db.models), providers, listing, limit, now);
    ResultsAfterCounts(old(db.models), providers, listing, limit, now);
    ModelsAfterKeeps(old(db.models), providers, listing, limit, now);
    r := Ok(results);
  }
}

/**
 * The OpenRouter scraper: the provider filter from `PROVIDERS_OPENROUTER`,
 * the provider and record derived from one entry of the catalogue, the
 * upsert save loop, and the item loop that tallies `(processed, inserted)`
 * per provider. The catalogue download is a parameter (`items`), and so is
 * the clock reading.
 */
module OpenRouter {
  import opened Wrappers
  import opened Text
  import opened Calendar
  import opened Json
  import opened UrlQuote
  import opened Storage
  import HuggingFace

  /** `[s.lower() for s in ps]`. */
  function LowerAll(ps: seq<string>): (r: seq<string>)
    ensures |r| == |ps|
    ensures forall k :: 0 <= k < |ps| ==> r[k] == Lower(ps[k])
  {
    seq(|ps|, k requires 0 <= k < |ps| => Lower(ps[k]))
  }

  /** `get_providers`: comma-separated names, stripped, blanks dropped, lower-cased. */
  function GetProviders(raw: Option<string>): seq<string> {
    if !Given(raw) then [] else LowerAll(NonBlankStripped(Split(raw.value, ',')))
  }

  /**
   * The OpenRouter filter is the Hugging Face provider list lower-cased:
   * empty for a missing or empty setting, and otherwise made of non-blank,
   * stripped, lower-case names without a comma.
   */
  lemma GetProvidersSpec(raw: Option<string>)
    ensures GetProviders(raw) == LowerAll(HuggingFace.GetProviders(raw))
    ensures !Given(raw) ==> GetProviders(raw) == []
    ensures var ps := GetProviders(raw);
      forall k :: 0 <= k < |ps| ==> ps[k] != "" && IsStripped(ps[k]) && IsLower(ps[k]) && ',' !in ps[k]
  {
    var hf := HuggingFace.GetProviders(raw);
    HuggingFace.GetProvidersSpec(raw);
    var ps := GetProviders(raw);
    forall k | 0 <= k < |ps|
      ensures ps[k] != "" && IsStripped(ps[k]) && ',' !in ps[k]
    {
      LowerOfStripped(hf[k]);
      assert forall i :: 0 <= i < |ps[k]| ==> ps[k][i] == LowerChar(hf[k][i]);
    }
  }

  /** `s.split(c, 1)[0].strip().lower()`, for a separator that is not a letter. */
  function LowerHead(s: string, c: char): (r: string)
    requires !('a' <= c <= 'z') && !('A' <= c <= 'Z')
    ensures IsLower(r) && IsStripped(r) && c !in r
  {
    var h := Strip(BeforeFirst(s, c));
    StripSpec(BeforeFirst(s, c));
    LowerOfStripped(h);
    assert c !in h;
    assert forall i :: 0 <= i < |h| ==> Lower(h)[i] == LowerChar(h[i]) && h[i] != c;
    Lower(h)
  }

  /**
   * `extract_provider(name, model_id)`: without a name, the lower-cased
   * text before the first `/` of the id, or "unknown"; with a name, the
   * lower-cased text before its first `:`, else the whole stripped name,
   * else the id's prefix as before (which may be empty), else "unknown".
   */
  function ExtractProvider(name: string, modelId: string): (r: string)
    ensures IsLower(r) && IsStripped(r)
  {
    if name == "" then
      if modelId != "" && '/' in modelId then
        var p := LowerHead(modelId, '/');
        if p != "" then p else "unknown"
      else "unknown"
    else if Strip(BeforeFirst(name, ':')) != "" then LowerHead(name, ':')
    else if Strip(name) != "" then
      LowerOfStripped(Strip(name));
      Lower(Strip(name))
    else if modelId != "" && '/' in modelId then LowerHead(modelId, '/')
    else "unknown"
  }

  /**
   * Where the provider comes from: no name gives the id's owner segment
   * (stripped, lower-cased, so no `/`), or "unknown" when that is blank or
   * the id has no `/`; a name with text before its first `:` gives that text
   * (so no `:` is left in it); a name whose text before `:` is blank gives
   * the whole stripped name; an all-blank name falls back to the owner
   * segment, blank or not. The result is empty only for a blank name and an
   * id whose owner segment is blank.
   */
  lemma ExtractProviderSpec(name: string, modelId: string)
    ensures var r := ExtractProvider(name, modelId);
      && (name == "" && '/' !in modelId ==> r == "unknown")
      && (name == "" && '/' in modelId ==>
            && r == (if LowerHead(modelId, '/') != "" then LowerHead(modelId, '/') else "unknown")
            && '/' !in r && r != "")
      && (name != "" && Strip(BeforeFirst(name, ':')) == "" && !AllSpace(name) ==> r == Lower(Strip(name)) && r != "")
      && (name != "" && Strip(BeforeFirst(name, ':')) != "" ==>
            r == Lower(Strip(BeforeFirst(name, ':'))) && ':' !in r && r != "")
      && (name != "" && AllSpace(name) ==> r == (if '/' in modelId then LowerHead(modelId, '/') else "unknown"))
      && (r == "" ==> name != "" && AllSpace(name) && '/' in modelId)
  {
    var head := Strip(BeforeFirst(name, ':'));
    StripSpec(name);
    if name != "" && AllSpace(name) {
      StripSpec(BeforeFirst(name, ':'));
      assert AllSpace(BeforeFirst(name, ':'));
    }
    if name != "" && head != "" {
      LowerOfStripped(head);
    }
    if name != "" && head == "" && Strip(name) != "" {
      LowerOfStripped(Strip(name));
    }
  }

  /** One entry of the catalogue's `data` list; an absent key reads as `None`/`null`. */
  datatype RawModel = RawModel(
    id: Option<string>,
    name: Option<string>,
    description: Option<string>,
    created: Json,
    pricing: Json)

  const CardUrlPrefix: string := "https://openrouter.ai/models/"
  const DescriptionLimit: nat := 5000
  const FreeMarker: string := ":free"

  /** `raw.get("id") or ""`. */
  function IdOf(raw: RawModel): string {
    if Given(raw.id) then raw.id.value else ""
  }

  /** `raw.get("name") or model_id`. */
  function NameOf(raw: RawModel): string {
    if Given(raw.name) then raw.name.value else IdOf(raw)
  }

  /**
   * `created_at`: a number (a Python `bool` counts, being an `int`) is Unix
   * epoch seconds; anything else falls back to the current time.
   */
  function CreatedStamp(created: Json, now: Moment): Stamp {
    match created
    case JNumber(n) => EpochStamp(n)
    case JBool(b) => EpochStamp(if b then 1.0 else 0.0)
    case _ => MomentStamp(now)
  }

  /** `pricing if isinstance(pricing, dict) and pricing else None`. */
  function PriceOf(pricing: Json): Option<map<string, Json>> {
    if pricing.JObject? && pricing.fields != map[] then Some(pricing.fields) else None
  }

  /**
   * The provider column of `to_record`: the extracted provider, or
   * "unknown" when that is empty; always a non-empty, stripped, lower-case
   * name.
   */
  function ProviderOf(raw: RawModel): (r: string)
    ensures r != "" && IsStripped(r) && IsLower(r)
    ensures ExtractProvider(NameOf(raw), IdOf(raw)) != "" ==> r == ExtractProvider(NameOf(raw), IdOf(raw))
    ensures ExtractProvider(NameOf(raw), IdOf(raw)) == "" ==> r == "unknown"
  {
    var provider := ExtractProvider(NameOf(raw), IdOf(raw));
    if provider != "" then provider
    else
      assert forall i :: 0 <= i < |"unknown"| ==> "unknown"[i] in "unknown";
      "unknown"
  }

  /**
   * `to_record` together with the values `save_models` binds for the columns
   * the record does not carry: no tags, downloads or likes, and `NULL` ranks.
   */
  function ToRecord(raw: RawModel, now: Moment): ModelRow {
    var modelId := IdOf(raw);
    var name := NameOf(raw);
    var encoded := Quote(if modelId != "" then modelId else name);
    ModelRow(
      if modelId != "" then modelId else encoded,
      ProviderOf(raw),
      name,
      Take(if Given(raw.description) then raw.description.value else "", DescriptionLimit),
      [],
      CreatedStamp(raw.created, now),
      None,
      None,
      CardUrlPrefix + encoded,
      MomentStamp(now),
      PriceOf(raw.pricing),
      Some(modelId != "" && Contains(Lower(modelId), FreeMarker)),
      None,
      None)
  }

  /**
   * The card URL is the OpenRouter page of the percent-encoded id (or name,
   * for an entry without an id): one path segment that decodes back to it.
   * A missing id is replaced by that encoded text, which is empty only when
   * id and name are both missing.
   */
  lemma ToRecordUrl(raw: RawModel, now: Moment)
    ensures var r := ToRecord(raw, now);
      var key := if IdOf(raw) != "" then IdOf(raw) else NameOf(raw);
      && |CardUrlPrefix| <= |r.modelCardUrl| && r.modelCardUrl[..|CardUrlPrefix|] == CardUrlPrefix
      && UnquoteToBytes(r.modelCardUrl[|CardUrlPrefix|..]) == Utf8(key)
      && (forall k :: |CardUrlPrefix| <= k < |r.modelCardUrl| ==> IsQuotedChar(r.modelCardUrl[k]))
      && (IdOf(raw) != "" ==> r.modelId == IdOf(raw))
      && (IdOf(raw) == "" ==> r.modelId == r.modelCardUrl[|CardUrlPrefix|..])
      && (r.modelId == "" <==> !Given(raw.id) && !Given(raw.name))
  {
    var r := ToRecord(raw, now);
    var key := if IdOf(raw) != "" then IdOf(raw) else NameOf(raw);
    var encoded := Quote(key);
    assert r.modelCardUrl == CardUrlPrefix + encoded;
    assert r.modelCardUrl[|CardUrlPrefix|..] == encoded;
    UnquoteQuote(key);
    QuoteIsSafe(key);
    QuoteLength(key);
    forall k | |CardUrlPrefix| <= k < |r.modelCardUrl| ensures IsQuotedChar(r.modelCardUrl[k]) {
      assert r.modelCardUrl[k] == encoded[k - |CardUrlPrefix|];
    }
  }

  /**
   * The remaining columns: the description is at most 5000 characters, the
   * price is kept only for a non-empty object, the model counts as open
   * source exactly when its id contains ":free" in any letter case, and the
   * creation time is the epoch number when there is one, a JSON boolean
   * counting as 1 or 0 the way Python's `bool` is an `int`.
   */
  lemma ToRecordFields(raw: RawModel, now: Moment)
    ensures var r := ToRecord(raw, now);
      && |r.description| <= DescriptionLimit
      && (Given(raw.description) ==> r.description <= raw.description.value)
      && (Given(raw.description) && |raw.description.value| <= DescriptionLimit ==> r.description == raw.description.value)
      && (Given(raw.description) && |raw.description.value| > DescriptionLimit ==> |r.description| == DescriptionLimit)
      && (!Given(raw.description) ==> r.description == "")
      && (r.price.Some? <==> raw.pricing.JObject? && raw.pricing.fields != map[])
      && (r.price.Some? ==> r.price.value == raw.pricing.fields)
      && r.isOpenSource.Some?
      && (r.isOpenSource.value <==> Given(raw.id) && exists i: nat :: OccursAt(Lower(raw.id.value), FreeMarker, i))
      && (raw.created.JNumber? ==> r.createdAt == EpochStamp(raw.created.n))
      && (raw.created.JBool? ==> r.createdAt == EpochStamp(if raw.created.b then 1.0 else 0.0))
      && (!raw.created.JNumber? && !raw.created.JBool? ==> r.createdAt == MomentStamp(now))
  {
    if Given(raw.id) {
      ContainsIff(Lower(raw.id.value), FreeMarker);
    }
  }

  /**
   * The provider's display name in `fetch_and_store`: the entry's name (or
   * the provider key) up to its first `:`, stripped; else the id's owner
   * segment, stripped; else the provider key.
   */
  function ProviderDisplay(raw: RawModel, record: ModelRow): (r: string)
    requires record.provider != ""
    ensures r != "" && (r == record.provider || IsStripped(r))
  {
    var base := if Given(raw.name) then raw.name.value else record.provider;
    var d := Strip(BeforeFirst(base, ':'));
    var d2 := if d == "" && record.modelId != "" && '/' in record.modelId then Strip(BeforeFirst(record.modelId, '/')) else d;
    if d2 != "" then d2 else record.provider
  }

  /** The rows `save_models` writes: each record under the given provider. */
  function UnderProvider(provider: string, records: seq<ModelRow>): (r: seq<ModelRow>)
    ensures |r| == |records|
    ensures forall k :: 0 <= k < |records| ==> r[k] == records[k].(provider := provider)
  {
    seq(|records|, k requires 0 <= k < |records| => records[k].(provider := provider))
  }

  /**
   * `save_models`: each record is upserted, and because PostgreSQL reports
   * an updated row as affected, every record also counts as inserted.
   */
  method SaveModels(db: Database, provider: string, records: seq<ModelRow>)
    returns (processed: nat, inserted: nat)
    modifies db`models
    ensures processed == |records| && inserted == processed
    ensures db.models == UpsertAll(old(db.models), UnderProvider(provider, records))
  {
    ghost var rows := UnderProvider(provider, records);
    processed := 0;
    inserted := 0;
    var i := 0;
    while i < |records|
      invariant 0 <= i <= |records|
      invariant processed == i && inserted == i
      invariant db.models == UpsertAll(old(db.models), rows[..i])
    {
      UpsertAllSnoc(old(db.models), rows[..i], rows[i]);
      assert rows[..i + 1] == rows[..i] + [rows[i]];
      processed := processed + 1;
      var rowcount := db.UpsertModel(records[i].(provider := provider));
      if rowcount != 0 {
        inserted := inserted + 1;
      }
      i := i + 1;
    }
    assert rows[..i] == rows;
  }

  /** `raw_models[:limit]` when `limit` is a positive number, else all of them. */
  function Limited(items: seq<RawModel>, limit: Option<int>): (r: seq<RawModel>)
    ensures limit.Some? && limit.value > 0 ==> |r| == if limit.value < |items| then limit.value else |items|
    ensures r <= items
    ensures !(limit.Some? && limit.value > 0) ==> r == items
  {
    if limit.Some? && limit.value > 0 && limit.value < |items| then items[..limit.value] else items
  }

  /** An entry is stored unless a filter is set and its provider is not in it. */
  predicate Kept(record: ModelRow, filter: seq<string>) {
    filter == [] || record.provider in filter
  }

  /** `to_record` of every entry, in catalogue order. */
  function Records(items: seq<RawModel>, now: Moment): (r: seq<ModelRow>)
    ensures |r| == |items|
    ensures forall k :: 0 <= k < |items| ==> r[k] == ToRecord(items[k], now)
  {
    seq(|items|, k requires 0 <= k < |items| => ToRecord(items[k], now))
  }

  /** The records that pass the filter, in order. */
  function Selected(rows: seq<ModelRow>, filter: seq<string>): seq<ModelRow> {
    if rows == [] then []
    else Selected(rows[..|rows| - 1], filter) + (if Kept(rows[|rows| - 1], filter) then [rows[|rows| - 1]] else [])
  }

  /** Without a filter every record is stored. */
  lemma {:induction false} SelectedWithoutFilter(rows: seq<ModelRow>)
    ensures Selected(rows, []) == rows
  {
    if rows != [] {
      SelectedWithoutFilter(rows[..|rows| - 1]);
      assert rows[..|rows| - 1] + [rows[|rows| - 1]] == rows;
    }
  }

  /** How many of `rows` belong to `provider`. */
  function Count(rows: seq<ModelRow>, provider: string): nat {
    if rows == [] then 0
    else Count(rows[..|rows| - 1], provider) + (if rows[|rows| - 1].provider == provider then 1 else 0)
  }

  /** Every selected record passes the filter. */
  lemma {:induction false} SelectedKept(rows: seq<ModelRow>, filter: seq<string>)
    ensures forall k :: 0 <= k < |Selected(rows, filter)| ==> Kept(Selected(rows, filter)[k], filter)
  {
    if rows != [] {
      SelectedKept(rows[..|rows| - 1], filter);
    }
  }

  /** A provider counted at least once owns one of the rows. */
  lemma {:induction false} CountWitness(rows: seq<ModelRow>, provider: string)
    requires Count(rows, provider) > 0
    ensures exists k :: 0 <= k < |rows| && rows[k].provider == provider
  {
    var n := |rows| - 1;
    if rows[n].provider != provider {
      CountWitness(rows[..n], provider);
      var k :| 0 <= k < n && rows[..n][k].provider == provider;
      assert rows[k] == rows[..n][k];
    }
  }

  /** No provider is counted more often than there are rows. */
  lemma {:induction false} CountBound(rows: seq<ModelRow>, provider: string)
    ensures Count(rows, provider) <= |rows|
  {
    if rows != [] {
      CountBound(rows[..|rows| - 1], provider);
    }
  }

  /**
   * With a filter set, every provider in the tally is one of the filter's
   * names, and its count never exceeds the number of stored entries.
   */
  lemma TallyWithinFilter(rows: seq<ModelRow>, filter: seq<string>, provider: string)
    requires filter != [] && Count(Selected(rows, filter), provider) > 0
    ensures provider in filter
    ensures Count(Selected(rows, filter), provider) <= |Selected(rows, filter)|
  {
    var sel := Selected(rows, filter);
    CountWitness(sel, provider);
    SelectedKept(rows, filter);
    CountBound(sel, provider);
  }

  /** Counting one more row. */
  lemma CountSnoc(rows: seq<ModelRow>, row: ModelRow, provider: string)
    ensures Count(rows + [row], provider) == Count(rows, provider) + (if row.provider == provider then 1 else 0)
  {
    assert (rows + [row])[..|rows|] == rows;
  }

  /** The records selected from `rows[..i + 1]`: those from `rows[..i]`, then `rows[i]` if it passes. */
  lemma SelectedStep(rows: seq<ModelRow>, i: nat, filter: seq<string>)
    requires i < |rows|
    ensures Selected(rows[..i + 1], filter) == Selected(rows[..i], filter) + (if Kept(rows[i], filter) then [rows[i]] else [])
  {
    assert rows[..i + 1][..i] == rows[..i];
  }

  /**
   * The `providers` table after the entries in order: each entry that passes
   * the filter upserts its provider under its display name, with no avatar.
   */
  function ProvidersAfter(table: map<string, ProviderRow>, items: seq<RawModel>, records: seq<ModelRow>, filter: seq<string>)
    : map<string, ProviderRow>
    requires |records| == |items|
    requires forall k :: 0 <= k < |records| ==> records[k].provider != ""
    decreases |items|
  {
    if items == [] then table
    else
      var n := |items| - 1;
      var before := ProvidersAfter(table, items[..n], records[..n], filter);
      if Kept(records[n], filter) then UpsertProviderRow(before, records[n].provider, ProviderDisplay(items[n], records[n]), None)
      else before
  }

  /** The entry `items[i]` extends the providers left by `items[..i]`. */
  lemma ProvidersAfterStep(table: map<string, ProviderRow>, items: seq<RawModel>, records: seq<ModelRow>, i: nat, filter: seq<string>)
    requires |records| == |items| && i < |items|
    requires forall k :: 0 <= k < |records| ==> records[k].provider != ""
    ensures var before := ProvidersAfter(table, items[..i], records[..i], filter);
      ProvidersAfter(table, items[..i + 1], records[..i + 1], filter)
      == if Kept(records[i], filter) then UpsertProviderRow(before, records[i].provider, ProviderDisplay(items[i], records[i]), None) else before
  {
    assert items[..i + 1][..i] == items[..i];
    assert records[..i + 1][..i] == records[..i];
  }

  /** After the run the providers are those stored before and those of the stored records. */
  lemma {:induction false} ProvidersAfterKeys(table: map<string, ProviderRow>, items: seq<RawModel>, records: seq<ModelRow>, filter: seq<string>)
    requires |records| == |items|
    requires forall k :: 0 <= k < |records| ==> records[k].provider != ""
    ensures forall p :: p in ProvidersAfter(table, items, records, filter) <==> p in table || Count(Selected(records, filter), p) > 0
    decreases |items|
  {
    if items != [] {
      var n := |items| - 1;
      ProvidersAfterKeys(table, items[..n], records[..n], filter);
      SelectedStep(records, n, filter);
      assert records[..n + 1] == records;
      forall p ensures Count(Selected(records, filter), p) > 0 <==> Count(Selected(records[..n], filter), p) > 0 || (Kept(records[n], filter) && records[n].provider == p) {
        if Kept(records[n], filter) {
          CountSnoc(Selected(records[..n], filter), records[n], p);
        } else {
          assert Selected(records[..n], filter) + [] == Selected(records[..n], filter);
        }
      }
    }
  }

  /** A provider stored before the run keeps its cached avatar, and a known avatar URL is never dropped. */
  lemma {:induction false} ProvidersAfterKeeps(table: map<string, ProviderRow>, items: seq<RawModel>, records: seq<ModelRow>, filter: seq<string>, p: string)
    requires |records| == |items|
    requires forall k :: 0 <= k < |records| ==> records[k].provider != ""
    requires p in table
    ensures var t := ProvidersAfter(table, items, records, filter);
      && p in t
      && t[p].avatarBlob == table[p].avatarBlob && t[p].avatarMime == table[p].avatarMime
      && (table[p].avatarUrl.Some? ==> t[p].avatarUrl.Some?)
    decreases |items|
  {
    if items != [] {
      var n := |items| - 1;
      var before := ProvidersAfter(table, items[..n], records[..n], filter);
      ProvidersAfterKeeps(table, items[..n], records[..n], filter, p);
      if Kept(records[n], filter) {
        UpsertProviderSpec(before, records[n].provider, ProviderDisplay(items[n], records[n]), None);
      }
    }
  }

  /** The tally of `rows`: each provider that owns a row, with its row count twice. */
  ghost predicate IsTally(results: map<string, (nat, nat)>, rows: seq<ModelRow>) {
    && (forall p :: p in results <==> Count(rows, p) > 0)
    && (forall p :: p in results ==> results[p] == (Count(rows, p), Count(rows, p)))
  }

  /** `results[key] = (existing[0] + 1, existing[1] + 1)` keeps the tally up to date. */
  lemma TallyStep(results: map<string, (nat, nat)>, rows: seq<ModelRow>, row: ModelRow)
    requires IsTally(results, rows)
    ensures var existing := if row.provider in results then results[row.provider] else (0, 0);
      IsTally(results[row.provider := (existing.0 + 1, existing.1 + 1)], rows + [row])
  {
    var existing := if row.provider in results then results[row.provider] else (0, 0);
    var next := results[row.provider := (existing.0 + 1, existing.1 + 1)];
    var rows' := rows + [row];
    forall p ensures (p in next <==> Count(rows', p) > 0) && (p in next ==> next[p] == (Count(rows', p), Count(rows', p))) {
      CountSnoc(rows, row, p);
      if p == row.provider {
        assert existing == (Count(rows, p), Count(rows, p));
      } else {
        assert Count(rows', p) == Count(rows, p);
      }
    }
  }

  /**
   * The work `fetch_and_store` does for one entry that passes the filter:
   * upsert its provider under the display name, then save its record under
   * that provider.
   */
  method StoreEntry(db: Database, record: ModelRow, display: string) returns (processed: nat, inserted: nat)
    modifies db`models, db`providers
    ensures processed == 1 && inserted == 1
    ensures db.models == Upsert(old(db.models), record)
    ensures db.providers == UpsertProviderRow(old(db.providers), record.provider, display, None)
  {
    db.UpsertProvider(record.provider, display, None);
    processed, inserted := SaveModels(db, record.provider, [record]);
    assert UnderProvider(record.provider, [record]) == [record];
    assert UpsertAll(Upsert(old(db.models), record), []) == Upsert(old(db.models), record);
  }

  /**
   * One iteration of `fetch_and_store`, given the entry and its record:
   * unless a non-empty filter excludes the record's provider, the provider
   * and the record are stored and the counts of that save are returned.
   */
  method ProcessEntry(db: Database, item: RawModel, record: ModelRow, filter: seq<string>)
    returns (stored: bool, processed: nat, inserted: nat)
    requires record.provider != ""
    modifies db`models, db`providers
    ensures stored == Kept(record, filter)
    ensures stored ==> processed == 1 && inserted == 1
    ensures stored ==> db.models == Upsert(old(db.models), record)
    ensures stored ==> db.providers == UpsertProviderRow(old(db.providers), record.provider, ProviderDisplay(item, record), None)
    ensures !stored ==> db.models == old(db.models) && db.providers == old(db.providers)
  {
    var key := record.provider;
    var display := ProviderDisplay(item, record);
    if filter != [] && key !in filter {
      return false, 0, 0;
    }
    stored := true;
    processed, inserted := StoreEntry(db, record, display);
  }

  /**
   * One entry of the loop of `fetch_and_store`: the tally, the stored rows
   * and the providers grow by `records[i]` exactly when it passes the filter.
   */
  method StoreStep(db: Database, items: seq<RawModel>, records: seq<ModelRow>, i: nat, filter: seq<string>,
                   results: map<string, (nat, nat)>, ghost base: map<string, ModelRow>, ghost providers: map<string, ProviderRow>)
    returns (next: map<string, (nat, nat)>)
    requires |records| == |items| && i < |items|
    requires forall k :: 0 <= k < |records| ==> records[k].provider != ""
    requires IsTally(results, Selected(records[..i], filter))
    requires db.models == UpsertAll(base, Selected(records[..i], filter))
    requires db.providers == ProvidersAfter(providers, items[..i], records[..i], filter)
    modifies db`models, db`providers
    ensures IsTally(next, Selected(records[..i + 1], filter))
    ensures db.models == UpsertAll(base, Selected(records[..i + 1], filter))
    ensures db.providers == ProvidersAfter(providers, items[..i + 1], records[..i + 1], filter)
  {
    ghost var sel := Selected(records[..i], filter);
    var record := records[i];
    var stored, processed, inserted := ProcessEntry(db, items[i], record, filter);
    SelectedStep(records, i, filter);
    ProvidersAfterStep(providers, items, records, i, filter);
    if stored {
      UpsertAllSnoc(base, sel, record);
      TallyStep(results, sel, record);
      var existing := if record.provider in results then results[record.provider] else (0, 0);
      next := results[record.provider := (existing.0 + processed, existing.1 + inserted)];
    } else {
      assert sel + [] == sel;
      next := results;
    }
  }

  /**
   * The loop of `fetch_and_store` over the entries and their records: every
   * record that passes the filter upserts its provider, is stored, and is
   * tallied under its provider.
   */
  method StoreAll(db: Database, items: seq<RawModel>, records: seq<ModelRow>, filter: seq<string>)
    returns (results: map<string, (nat, nat)>)
    requires |records| == |items|
    requires forall k :: 0 <= k < |records| ==> records[k].provider != ""
    modifies db`models, db`providers
    ensures IsTally(results, Selected(records, filter))
    ensures db.models == UpsertAll(old(db.models), Selected(records, filter))
    ensures db.providers == ProvidersAfter(old(db.providers), items, records, filter)
  {
    results := map[];
    var i := 0;
    while i < |items|
      invariant 0 <= i <= |items|
      invariant IsTally(results, Selected(records[..i], filter))
      invariant db.models == UpsertAll(old(db.models), Selected(records[..i], filter))
      invariant db.providers == ProvidersAfter(old(db.providers), items[..i], records[..i], filter)
    {
      results := StoreStep(db, items, records, i, filter, results, old(db.models), old(db.providers));
      i := i + 1;
    }
    assert items[..i] == items;
    assert records[..i] == records;
  }

  /**
   * `fetch_and_store`: the catalogue (`items`, standing for the downloaded
   * `data` list) is cut to `limit`, each entry is made a record, entries
   * outside a non-empty filter are skipped, and every other entry upserts
   * its provider and its model row and adds its counts to its provider's
   * tally. `now` stands for every clock reading of the run.
   */
  method FetchAndStore(db: Database, items: seq<RawModel>, limit: Option<int>, filterRaw: Option<string>, now: Moment)
    returns (results: map<string, (nat, nat)>)
    modifies db`models, db`providers
    ensures var sel := Selected(Records(Limited(items, limit), now), GetProviders(filterRaw));
      && IsTally(results, sel)
      && db.models == UpsertAll(old(db.models), sel)
      && db.providers == ProvidersAfter(old(db.providers), Limited(items, limit), Records(Limited(items, limit), now), GetProviders(filterRaw))
    ensures forall p :: p in results ==> p in db.providers
  {
    var filter := GetProviders(filterRaw);
    var kept := Limited(items, limit);
    var records := Records(kept, now);
    assert forall k :: 0 <= k < |records| ==> records[k].provider == ProviderOf(kept[k]);
    results := StoreAll(db, kept, records, filter);
    ProvidersAfterKeys(old(db.providers), kept, records, filter);
  }
}

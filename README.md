# SiliconRiver scrapers and API, modelled in Dafny

SiliconRiver collects metadata about machine-learning models and serves it
through a REST API. This project models its core:

- The two scrapers that fill the PostgreSQL `models`, `providers` and `sync_log` tables.
- The Hugging Face scraper (`src/scraper/fetch_models.py`). It reads the
  provider list from `PROVIDERS` and turns each hub `ModelInfo` into a row.
  It inserts rows with `ON CONFLICT DO NOTHING`, counts `(processed, inserted)`,
  and logs one `sync_log` row per provider.
- The OpenRouter scraper (`src/scraper/fetch_models_openrouter.py`). It
  lower-cases the provider filter and derives a provider from each catalogue
  entry. It builds the row, with a percent-encoded card URL, a price and a
  `:free` open-source flag. It upserts the provider and the row with
  `ON CONFLICT DO UPDATE` and `COALESCE`, and tallies counts per provider.
- The API (`backend/main.py`): the tag parser, the timeline window, and the
  SQL statements and parameter lists of `/api/models` and `/api/timeline`.
  It also covers the decisions of `/api/providers/{id}/avatar`: which status
  an upstream failure becomes, and when the fetched image is cached.

The modules are:

- `Text`: Python's `strip`, `lower`, `split`, slicing and `in`.
- `Calendar`: proleptic Gregorian seconds for `datetime`, naive or aware.
- `UrlQuote`: `urllib.parse.quote(safe="")` as UTF-8 followed by percent-encoding.
- `Storage`: the tables as maps, and a `Database` class whose methods are the SQL statements.
- `Api`, `HuggingFace` and `OpenRouter`: one module per core file.

SQL statements are sequences of text and `%s` placeholders. Each statement
is proved to bind exactly as many values as it has placeholders.

## Model

| member | source | states |
|---|---|---|
| `Api.ParseTagsSpec` | backend/main.py:376-385 | Missing or empty text gives `[]`. A stripped text that starts with `[` and decodes gives the decoded list. Otherwise the result is the comma pieces, each stripped, none blank, none holding a comma. |
| `Api.ParseTagsJoin` | backend/main.py:379-385 | A comma-joined list of clean tags that does not start with `[` parses back to the same list. |
| `Api.YearWindow` | backend/main.py:357-360 | A given year gives a window from 1 January 00:00:00 to 31 December 23:59:59. The window spans 365 or 366 days and its label is the year's digits followed by 年. The result is an error exactly when `datetime` rejects the year. |
| `Api.PresetWindow` | backend/main.py:362-374 | Without a year the window ends now. "6m" starts 182 days back, is titled 近半年, and fails exactly when now is less than 182 days after year 1. "1y" starts on 1 January of the current year, is titled 今年, and never fails. Any other preset, the empty one included, starts 30 days back, is titled 近30天, and fails exactly when now is less than 30 days after year 1. |
| `Api.RecentWithinHalfYear` | backend/main.py:362-374 | The "30d" window lies inside the "6m" window. |
| `Api.JoinAndSpec` | backend/main.py:122 | `" AND ".join(filters)` binds the sum of the filters' placeholders and starts with the first filter. |
| `Api.SlotsAppend` | backend/main.py:122-135 | Concatenating statement pieces adds up their placeholders. |
| `Api.SumSlotsAppend` | backend/main.py:109-120 | Appending a filter adds its placeholders to the total. |
| `Api.ListFilterFragments` | backend/main.py:113-120 | The provider and tag filters bind 1 value each and the search filter binds 2. |
| `Api.ListFragments` | backend/main.py:122-135 | `LIMIT %s OFFSET %s` binds 2 values and the fixed SELECT texts bind none. |
| `Api.WhereClauseSpec` | backend/main.py:122 | The WHERE clause is empty exactly when there are no filters. It binds the filters' values. |
| `Api.ListFilters` | backend/main.py:109-120 | Parameters are the provider, then `%tag%`, then `%search%` twice, each present only when given and non-empty. Their number equals the filters' placeholders. There are no filters exactly when nothing is given. |
| `Api.ListModelsQuery` | backend/main.py:108-138 | The parameters are the provider, then `%tag%`, then `%search%` twice, each only when given and non-empty. The WHERE clause is empty exactly when none is given. Both statements bind exactly as many values as they have placeholders. The page query's values are the filter values followed by the page size and `(page-1)*page_size`. |
| `Api.TimelineFilterFragments` | backend/main.py:200-210 | The BETWEEN filter binds 2 values, and the provider and model-name filters bind 1 each. |
| `Api.TimelineFragments` | backend/main.py:212-242 | The fixed SELECT texts bind no value and `ORDER BY ... LIMIT %s OFFSET %s` binds 2, whatever the order. |
| `Api.TimelineFilters` | backend/main.py:200-210 | The BETWEEN filter and the window's start and end always come first. The provider and `%model_name%` follow when given. The number of values equals the placeholders. |
| `Api.TimelineStatements` | backend/main.py:212-242 | The count and page statements share the joined filters, which start with the window filter. Each binds as many values as it has placeholders, and the page values end with the page size and `(page-1)*page_size`. |
| `Api.TimelineModelsQuery` | backend/main.py:186-245 | The call fails exactly when the window does, and otherwise uses that window. The parameters are the window's start and end, then the provider and `%model_name%` when given. The WHERE clause starts with the window filter and every statement binds as many values as it has placeholders. Order is ASC exactly for `sort == "asc"`. The preset reads "year" when a year is given. |
| `Api.UpstreamError` | backend/main.py:320-325 | Status 404 stays 404, 5xx becomes 502, other 4xx pass through, and below 400 is no error. |
| `Api.ProviderAvatar` | backend/main.py:289-352 | An unknown provider gives 404. A cached non-empty blob is served with its MIME type or image/png. No URL gives 404. A request error gives 502 and an upstream error follows `UpstreamError`. Otherwise the body is served with Cache-Control plus ETag and Last-Modified when present. The body is cached when it is at most `AVATAR_MAX_BYTES`, and nothing else changes. |
| `Storage.Coalesce` | src/scraper/fetch_models_openrouter.py:172-175 | `COALESCE(new, old)` is NULL only when both are. It is the new value when that is present and the stored value otherwise. |
| `Storage.InsertIfAbsentSpec` | src/scraper/fetch_models.py:121-128 | `ON CONFLICT DO NOTHING` leaves a table holding the key unchanged. Otherwise it adds exactly that key. |
| `Storage.UpsertSpec` | src/scraper/fetch_models_openrouter.py:157-176 | After the upsert the key is stored and other rows are untouched. A new key stores the incoming row as it is. For a stored key, the id, provider, name, description, tags, creation time, card URL, insertion time and open-source flag come from the incoming row. Price and both ranks are the incoming value when present and the stored value otherwise. Downloads and likes keep their stored values. |
| `Storage.UpsertIdempotent` | src/scraper/fetch_models_openrouter.py:157-176 | Repeating the same upsert changes nothing. |
| `Storage.InsertAllKeys` | src/scraper/fetch_models.py:119-143 | Insert-if-absent of a batch adds exactly the batch's keys to the stored ones. |
| `Storage.InsertAllKeeps` | src/scraper/fetch_models.py:119-143 | Insert-if-absent of a batch never changes a stored row. |
| `Storage.InsertAllCount` | src/scraper/fetch_models.py:119-143 | The inserted count is the table's growth, at most the batch size. |
| `Storage.InsertAllFirstWins` | src/scraper/fetch_models.py:119-143 | For a new key, the first record carrying it is the one stored. |
| `Storage.InsertAllSnoc` | src/scraper/fetch_models.py:119-143 | One more loop iteration is one more insert-if-absent, and the count rises exactly when the key was new. |
| `Storage.UpsertAllSpec` | src/scraper/fetch_models_openrouter.py:155-193 | Upserting a batch keeps every stored key and adds exactly the batch's keys. Rows outside the batch are untouched and a known price survives. |
| `Storage.UpsertAllSnoc` | src/scraper/fetch_models_openrouter.py:155-193 | One more loop iteration is one more upsert. |
| `Storage.UpsertProviderSpec` | src/scraper/fetch_models_openrouter.py:72-90 | The provider is stored under the display name, or under its id when the name is empty. Other providers are untouched, a known avatar URL is never replaced by NULL, and a cached avatar survives. |
| `Storage.Database.constructor` | scripts/init_db.py:69-78 | A fresh schema has empty tables. |
| `Storage.Database.InsertModelIgnoringConflict` | src/scraper/fetch_models.py:121-143 | The table becomes the insert-if-absent result. The rowcount is 1 for a new key and 0 otherwise. |
| `Storage.Database.UpsertModel` | src/scraper/fetch_models_openrouter.py:157-195 | The table becomes the upsert result, and the rowcount is 1 whether the row was inserted or updated. |
| `Storage.Database.UpsertProvider` | src/scraper/fetch_models_openrouter.py:72-90 | The providers table becomes the `upsert_provider` result. |
| `Storage.Database.AppendSyncLog` | src/scraper/fetch_models.py:144-159 | Exactly one `sync_log` row is appended. |
| `Storage.Database.CacheAvatar` | backend/main.py:330-339 | Only the provider's blob and MIME type change, and an unknown id changes nothing. |
| `HuggingFace.GetProvidersSpec` | src/scraper/fetch_models.py:55-58 | Missing or empty text gives `[]`. Otherwise every name is non-blank, stripped and comma-free. |
| `HuggingFace.GetProvidersJoin` | src/scraper/fetch_models.py:55-58 | A comma-joined list of clean names reads back as the same list. |
| `HuggingFace.NormaliseDatetime` | src/scraper/fetch_models.py:69-74 | The result is always in UTC. |
| `HuggingFace.NormaliseDatetimeSpec` | src/scraper/fetch_models.py:69-74 | A missing value becomes now. A naive value keeps its wall-clock reading and an aware one keeps its instant. Normalising twice changes nothing. |
| `HuggingFace.ToRecordIdentity` | src/scraper/fetch_models.py:93-101 | The key is the hub id. The name is the text after its last `/`, or the whole id when it has none. The card URL is the hub page of the id. |
| `HuggingFace.ToRecordDescription` | src/scraper/fetch_models.py:81-97 | The description is the card's summary, else its description, else the model's own description, else empty. It is kept whole up to 300 characters, and a longer one is cut to a prefix of exactly 300. |
| `HuggingFace.ToRecordTimes` | src/scraper/fetch_models.py:87-88 | The creation time is `created_at`, else `lastModified`, else now, in UTC. The insertion time is now. |
| `HuggingFace.SaveModels` | src/scraper/fetch_models.py:115-161 | Processed is the number of records and inserted is the number of new keys. The table is the insert-if-absent fold. One "success" `sync_log` row carries the same counts. |
| `HuggingFace.SaveCounts` | src/scraper/fetch_models.py:115-161 | Inserted is at most processed, equals the table's growth, and no stored row changes. |
| `HuggingFace.DuplicateKeepsFirst` | tests/test_fetch_models.py:36-70 | Three records whose third repeats the first key give `(3, 2)` and two rows, and the first record's row is kept. |
| `HuggingFace.StoreProvider` | src/scraper/fetch_models.py:172-185 | One provider's run processes its whole listing. Inserted is the number of new keys among its records, and the table becomes their insert-if-absent fold. Exactly one "success" `sync_log` row with those counts is appended. |
| `HuggingFace.ResultsAfterKeys` | src/scraper/fetch_models.py:174-185 | The results name exactly the providers that ran. |
| `HuggingFace.ResultsAfterCounts` | src/scraper/fetch_models.py:174-185 | Each result is the provider's listing size as processed and at most that many inserted. |
| `HuggingFace.ModelsAfterKeeps` | src/scraper/fetch_models.py:174-185 | No provider's run changes a row stored before it. |
| `HuggingFace.StoreNext` | src/scraper/fetch_models.py:174-185 | One loop turn moves the table, the log and the results from the runs of `providers[..i]` to those of `providers[..i+1]`. |
| `HuggingFace.StoreProviders` | src/scraper/fetch_models.py:172-185 | The loop leaves the table, the log and the results of all runs in order. |
| `HuggingFace.FetchAndStore` | src/scraper/fetch_models.py:164-186 | The call fails exactly when no provider is configured, and then writes nothing. Otherwise the table is the fold of every provider's run in order. The `sync_log` gains one entry per run, each counting the new keys against the table that run started from. The results map each provider to the counts of its last run. Their keys are exactly the providers, each with its listing size as processed and inserted ≤ processed. Stored rows are kept. |
| `OpenRouter.GetProvidersSpec` | src/scraper/fetch_models_openrouter.py:58-61 | The filter is the Hugging Face list lower-cased. Every name is non-blank, stripped, lower-case and comma-free. |
| `OpenRouter.LowerHead` | src/scraper/fetch_models_openrouter.py:104 | `s.split(c, 1)[0].strip().lower()` is lower-case and stripped and holds no `c`. |
| `OpenRouter.ExtractProvider` | src/scraper/fetch_models_openrouter.py:101-116 | The provider is always lower-case and stripped. |
| `OpenRouter.ExtractProviderSpec` | src/scraper/fetch_models_openrouter.py:101-116 | With no name, the id's owner segment lower-cased is used, or "unknown" when that is empty. A name with text before its first `:` gives that text lower-cased. A name whose part before `:` is blank gives the whole name stripped and lower-cased, and a blank name falls back to the id the same way. The result never holds `/` when taken from the id, and is empty only for a blank name and a blank owner segment. |
| `OpenRouter.ProviderOf` | src/scraper/fetch_models_openrouter.py:122-138 | The stored provider is non-empty, stripped and lower-case. It is the extracted provider when that is non-empty, and "unknown" when it is empty. |
| `OpenRouter.ToRecordUrl` | src/scraper/fetch_models_openrouter.py:120-137 | The card URL is the OpenRouter prefix followed by one percent-encoded segment that decodes to the UTF-8 of the id, or of the name when there is no id. A missing id is replaced by that segment, which is empty only when id and name are both missing. |
| `OpenRouter.ToRecordFields` | src/scraper/fetch_models_openrouter.py:123-145 | A non-empty description of at most 5000 characters is kept whole, a longer one is cut to a prefix of exactly 5000 characters, and a missing or empty one becomes "". The price is kept exactly for a non-empty object. Open source holds exactly when the id contains ":free" after lower-casing. A numeric `created` is the epoch time. A JSON boolean counts as 1 or 0, as a Python `bool` does. Anything else becomes now. |
| `OpenRouter.ProviderDisplay` | src/scraper/fetch_models_openrouter.py:225-228 | The display name is never empty. It is either stripped or the provider key. |
| `OpenRouter.SaveModels` | src/scraper/fetch_models_openrouter.py:151-197 | The table is the upsert fold of the records under that provider, and processed = inserted = the number of records. |
| `OpenRouter.Limited` | src/scraper/fetch_models_openrouter.py:217-218 | A positive limit keeps the first `limit` entries, and any other limit keeps all. |
| `OpenRouter.SelectedWithoutFilter` | src/scraper/fetch_models_openrouter.py:229-230 | With no filter every record is stored. |
| `OpenRouter.SelectedKept` | src/scraper/fetch_models_openrouter.py:229-230 | Every stored record passes the filter. |
| `OpenRouter.CountWitness` | src/scraper/fetch_models_openrouter.py:233-234 | A provider with a positive count owns a stored record. |
| `OpenRouter.CountBound` | src/scraper/fetch_models_openrouter.py:233-234 | No provider's count exceeds the number of stored records. |
| `OpenRouter.TallyWithinFilter` | src/scraper/fetch_models_openrouter.py:229-234 | With a filter set, every tallied provider is in the filter. |
| `OpenRouter.ProvidersAfterKeys` | src/scraper/fetch_models_openrouter.py:224-232 | After the run, the providers are those stored before and those owning a stored record. |
| `OpenRouter.ProvidersAfterKeeps` | src/scraper/fetch_models_openrouter.py:72-90 | A provider stored before the run keeps its cached avatar, and its known avatar URL is never dropped. |
| `OpenRouter.TallyStep` | src/scraper/fetch_models_openrouter.py:233-234 | `results[key] = (existing[0]+1, existing[1]+1)` keeps the results equal to the per-provider counts. |
| `OpenRouter.StoreEntry` | src/scraper/fetch_models_openrouter.py:231-232 | The provider becomes the `upsert_provider` result for the display name with no avatar URL. The one record is upserted and the counts are (1, 1). |
| `OpenRouter.ProcessEntry` | src/scraper/fetch_models_openrouter.py:224-232 | The entry is stored exactly when the filter is empty or names its provider. Then the provider row is upserted under `ProviderDisplay` and the record is upserted. Otherwise neither table changes. |
| `OpenRouter.StoreStep` | src/scraper/fetch_models_openrouter.py:223-234 | One entry grows the tally, the stored rows and the providers by its record exactly when it passes the filter. |
| `OpenRouter.StoreAll` | src/scraper/fetch_models_openrouter.py:222-234 | The results are the per-provider counts of the selected records. The models table is their upsert fold and the providers table is `ProvidersAfter` of the entries. |
| `OpenRouter.FetchAndStore` | src/scraper/fetch_models_openrouter.py:212-235 | After the limit and the filter, the results are each provider's count of stored entries, twice. The models table is the upsert fold of the stored records. The providers table is the provider-upsert fold of the kept entries, so every tallied provider is stored. |
| `Text.StripSpec` | backend/main.py:379 | `strip()` returns a slice with only whitespace outside it. The result is empty exactly when the text is all whitespace. |
| `Text.SplitCleanJoin` | backend/main.py:385 | Split, strip and drop-blank recovers any list of clean, separator-free pieces from its join. |
| `Text.SplitPiecesFree` | backend/main.py:385 | No piece of a split holds the separator. |
| `Text.JoinSplit` | backend/main.py:385 | Joining the pieces of a split with the separator gives back the text. |
| `Text.StripWithout` | backend/main.py:385 | `strip()` never adds a character. |
| `Text.NonBlankStrippedFrom` | backend/main.py:385 | Every cleaned piece is the stripped form of some input piece. |
| `Text.NonBlankStrippedWithout` | backend/main.py:385 | Cleaning pieces that lack a character gives pieces that lack it. |
| `Text.LastIndexOf` | src/scraper/fetch_models.py:96 | The index of the last occurrence of a character, or -1 exactly when it does not occur. |
| `Text.AfterLast` | src/scraper/fetch_models.py:96 | `split("/")[-1]` is the longest suffix without a `/`. It is shorter than the text exactly when the text holds a `/`, and then a `/` precedes it. |
| `Text.ContainsIff` | src/scraper/fetch_models_openrouter.py:132 | Python's `in` on strings holds exactly when the substring occurs at some index. |
| `Text.ParseNatToString` | backend/main.py:360 | The year's decimal label reads back as the year. |
| `Calendar.YearLength` | backend/main.py:358-359 | From `datetime(y,1,1)` to `datetime(y,12,31,23,59,59)` is 365 or 366 days less one second. |
| `Calendar.YearsAdjoin` | backend/main.py:358-359 | Consecutive year windows meet without a gap. |
| `Calendar.NewYearIsFirst` | backend/main.py:367-368 | `datetime(now.year, 1, 1)` is never after now. |
| `UrlQuote.UnquoteQuote` | src/scraper/fetch_models_openrouter.py:128 | Percent-decoding `quote(s, safe="")` gives back the UTF-8 bytes of `s`. |
| `UrlQuote.QuoteIsSafe` | src/scraper/fetch_models_openrouter.py:128-129 | The encoding holds only unreserved characters and `%`, so it is one URL path segment. |
| `UrlQuote.QuoteLength` | src/scraper/fetch_models_openrouter.py:128-137 | Quoting never shortens text, so only empty text quotes to empty text. |
| `UrlQuote.QuoteUnreservedIsIdentity` | src/scraper/fetch_models_openrouter.py:128 | Text of unreserved ASCII characters is left as it is. |

## Left out

- Network access is a parameter. The Hugging Face hub client is `listing`, the OpenRouter download is `items`, and the avatar HTTP client is `fetch`. `fetch_remote_models`, its `ValueError` for a non-list `data`, and HTTP status errors of the download are not modelled.
- Every clock reading of one run (`datetime.now`, `datetime.utcnow`) is collapsed into one `now` parameter.
- Timestamps are kept as a `Stamp` value (epoch seconds or a `datetime`). The `strftime`/`isoformat` text is not produced, and neither are microseconds.
- The timeline's `created_at BETWEEN %s AND %s` is modelled as a comparison of instants. In the database it compares text: the stored "YYYY-MM-DD HH:MM:SS" against the bound `isoformat()` "YYYY-MM-DDTHH:MM:SS". Because a space sorts before `T`, rows from the window's first day can fall outside the text range. The model does not capture this.
- `json.loads` in `_parse_tags` is a parameter returning a list of strings. A decoded value of another shape is not represented.
- `json.dumps` of tags and prices is not modelled. The stored price and tags are the decoded values.
- Lower-casing is ASCII-only. Python's Unicode `lower()` on non-ASCII letters is not modelled.
- `OverflowError` from `datetime.fromtimestamp` and `astimezone` on extreme values is not modelled.
- Database connections, transactions, commits and the rollback after a failed avatar cache write are not modelled. Every statement is taken to succeed.
- `updated_at = CURRENT_TIMESTAMP` on `providers` is not modelled.
- The schema script creates `models` without the price, open-source and rank columns and creates no `providers` table. The model takes those columns and that table to exist, as the scrapers do.
- FastAPI routing, response models and query validation are outside the model. The page bounds appear as preconditions. The `^(30d|6m|1y)` pattern on `preset` is not modelled, so any preset text is accepted and treated as the code does.
- `get_model`, `provider_stats` and `healthcheck` only pass a fixed query through and are not modelled. Neither is the mapping of result rows into response models.
- Statements are modelled as text and placeholder pieces. Their exact whitespace layout and the rendered statement text are not.
- `normalise_timestamp` and `format_timestamp` are represented only by the `Stamp` they would render.
- Logging, `load_dotenv` and the `__main__` blocks are not modelled. Neither are the daily wrapper scripts.
- HuggingFace.GetProvidersJoin: states the parse of clean joined lists in general. The test's concrete `"meta-llama, google "` vector is not proved on its own.
- OpenRouter.SaveModels: inserted equals processed as written, because PostgreSQL reports an updated row as affected.

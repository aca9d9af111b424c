/**
 * The request-handling logic of the REST API: tag parsing, the timeline
 * window, the SQL `WHERE` clauses and parameter lists built by the list and
 * timeline endpoints, and the provider-avatar endpoint's decisions. The
 * clock, the database connection and the HTTP client are parameters.
 */
module Api {
  import opened Wrappers
  import opened Text
  import opened Calendar
  import opened UrlQuote
  import opened Storage

  // ---------------------------------------------------------------------
  // _parse_tags

  /**
   * `_parse_tags`: nothing for `None` or `""`; otherwise the stripped text is
   * decoded as JSON when it starts with `[` and decodes, and is otherwise
   * split on commas, each piece stripped and blank pieces dropped. `decode`
   * stands for `json.loads`, `None` for a `JSONDecodeError`.
   */
  function ParseTags(raw: Option<string>, decode: string -> Option<seq<string>>): seq<string> {
    if !Given(raw) then []
    else
      var s := Strip(raw.value);
      if |s| > 0 && s[0] == '[' && decode(s).Some? then decode(s).value
      else NonBlankStripped(Split(s, ','))
  }

  /**
   * The outcome of `_parse_tags` by cases: empty for a missing or empty
   * column, the decoded list exactly when the stripped text starts with `[`
   * and decodes, and otherwise the comma pieces, none blank, none with
   * surrounding whitespace or a comma, each the stripped form of a piece.
   */
  lemma ParseTagsSpec(raw: Option<string>, decode: string -> Option<seq<string>>)
    ensures !Given(raw) ==> ParseTags(raw, decode) == []
    ensures Given(raw) ==>
      var s := Strip(raw.value);
      var tags := ParseTags(raw, decode);
      if |s| > 0 && s[0] == '[' && decode(s).Some? then tags == decode(s).value
      else
        && tags == NonBlankStripped(Split(s, ','))
        && forall k :: 0 <= k < |tags| ==> tags[k] != "" && IsStripped(tags[k]) && ',' !in tags[k]
  {
    if Given(raw) {
      var s := Strip(raw.value);
      var tags := ParseTags(raw, decode);
      if !(|s| > 0 && s[0] == '[' && decode(s).Some?) {
        SplitPiecesFree(s, ',');
        NonBlankStrippedWithout(Split(s, ','), ',');
      }
    }
  }

  /**
   * A comma-joined list of clean tags parses back to the same list, provided
   * the text does not look like a JSON array.
   */
  lemma ParseTagsJoin(tags: seq<string>, decode: string -> Option<seq<string>>)
    requires forall k :: 0 <= k < |tags| ==> tags[k] != "" && IsStripped(tags[k]) && ',' !in tags[k]
    requires tags != [] ==> tags[0][0] != '['
    ensures ParseTags(Some(Join(tags, ",")), decode) == tags
  {
    SplitCleanJoin(tags, ',');
    JoinIsStripped(tags, ",");
    StripOfStripped(Join(tags, ","));
  }

  // ---------------------------------------------------------------------
  // _calculate_timeline_window

  /** A query window: first and last second (on the `Calendar` scale) and its display label. */
  datatype Window = Window(startsAt: int, endsAt: int, title: string)

  const HalfYearDays: int := 182
  const RecentDays: int := 30

  /** `now - timedelta(days=days)`, or Python's `OverflowError` before year 1. */
  function DaysBefore(now: int, days: int, title: string): Result<Window> {
    if now - days * SecondsPerDay < 0 then Err("date value out of range")
    else Ok(Window(now - days * SecondsPerDay, now, title))
  }

  /**
   * `_calculate_timeline_window` with the clock reading `now` passed in. A
   * year outside what `datetime` accepts is the `ValueError` it raises.
   */
  function TimelineWindow(preset: string, year: Option<int>, now: DateTime): Result<Window>
    requires now.Valid()
  {
    if year.Some? then
      var y := year.value;
      if MinYear <= y <= MaxYear then
        Ok(Window(NewYear(y).Seconds(), NewYearsEve(y).Seconds(), NatToString(y) + "年"))
      else Err("year is out of range")
    else
      var p := if preset == "" then "30d" else preset;
      if p == "6m" then DaysBefore(now.Seconds(), HalfYearDays, "近半年")
      else if p == "1y" then Ok(Window(NewYear(now.year).Seconds(), now.Seconds(), "今年"))
      else DaysBefore(now.Seconds(), RecentDays, "近30天")
  }

  /**
   * A requested year gives that whole calendar year, first to last second,
   * 365 or 366 days long, labelled with the year's digits, whatever the
   * preset; only a year `datetime` rejects is an error.
   */
  lemma YearWindow(preset: string, y: int, now: DateTime)
    requires now.Valid()
    ensures var r := TimelineWindow(preset, Some(y), now);
      && (r.Ok? <==> MinYear <= y <= MaxYear)
      && (r.Ok? ==>
        && r.value.startsAt == NewYear(y).Seconds()
        && r.value.endsAt == NewYearsEve(y).Seconds()
        && r.value.endsAt - r.value.startsAt + 1 == DaysInYear(y) * SecondsPerDay
        && r.value.title == NatToString(y) + "年"
        && ParseNat(r.value.title[..|r.value.title| - 1]) == y)
  {
    if MinYear <= y <= MaxYear {
      YearLength(y);
      var title := NatToString(y) + "年";
      assert title[..|title| - 1] == NatToString(y);
      ParseNatToString(y);
    }
  }

  /**
   * Without a year the window always ends now and starts no later: 182 days
   * back for "6m" (labelled 近半年), the first second of the current year
   * for "1y" (今年), and 30 days back for anything else, the empty preset
   * included (近30天). It fails exactly when its start would fall before
   * year 1, which "1y" never does.
   */
  lemma PresetWindow(preset: string, now: DateTime)
    requires now.Valid()
    ensures var r := TimelineWindow(preset, None, now);
      && (r.Ok? ==> r.value.endsAt == now.Seconds() && r.value.startsAt <= r.value.endsAt)
      && (preset == "6m" ==> (r.Err? <==> now.Seconds() < 182 * 86400))
      && (preset == "6m" ==> r.Ok? ==> r.value.startsAt == now.Seconds() - 182 * 86400 && r.value.title == "近半年")
      && (preset == "1y" ==> r.Ok? && r.value.startsAt == NewYear(now.year).Seconds() && r.value.title == "今年")
      && (preset != "6m" && preset != "1y" ==> (r.Err? <==> now.Seconds() < 30 * 86400))
      && (preset != "6m" && preset != "1y" ==> r.Ok? ==>
            r.value.startsAt == now.Seconds() - 30 * 86400 && r.value.title == "近30天")
  {
    NewYearIsFirst(now);
  }

  /** The "30d" window lies inside the "6m" window: same end, later start. */
  lemma RecentWithinHalfYear(now: DateTime)
    requires now.Valid()
    ensures var m := TimelineWindow("30d", None, now);
      var h := TimelineWindow("6m", None, now);
      h.Ok? ==> m.Ok? && h.value.startsAt <= m.value.startsAt && m.value.endsAt == h.value.endsAt
  {
  }

  // ---------------------------------------------------------------------
  // SQL statements

  /** A value bound to a `%s` placeholder: text, an integer, or a `datetime` as an instant. */
  datatype SqlParam = TextParam(text: string) | IntParam(n: int) | InstantParam(seconds: int)

  /** A piece of an SQL statement: literal text, or a `%s` placeholder psycopg binds. */
  datatype Chunk = Text(text: string) | Slot

  /** An SQL statement as the endpoints assemble it, placeholder by placeholder. */
  type Sql = seq<Chunk>

  /** The number of values the statement binds. */
  function Slots(sql: Sql): nat {
    if sql == [] then 0 else (if sql[0].Slot? then 1 else 0) + Slots(sql[1..])
  }

  /** Placeholders of a concatenation add up. */
  lemma {:induction false} SlotsAppend(a: Sql, b: Sql)
    ensures Slots(a + b) == Slots(a) + Slots(b)
  {
    if a == [] {
      assert a + b == b;
    } else {
      assert (a + b)[1..] == a[1..] + b;
      SlotsAppend(a[1..], b);
    }
  }

  /** `" AND ".join(filters)`. */
  function JoinAnd(filters: seq<Sql>): Sql {
    if filters == [] then []
    else if |filters| == 1 then filters[0]
    else filters[0] + [Text(" AND ")] + JoinAnd(filters[1..])
  }

  /** The values the filters bind, added up. */
  function SumSlots(filters: seq<Sql>): nat {
    if filters == [] then 0 else Slots(filters[0]) + SumSlots(filters[1..])
  }

  /** Joining filters with " AND " binds exactly the values the filters bind, first filter first. */
  lemma {:induction false} JoinAndSpec(filters: seq<Sql>)
    ensures Slots(JoinAnd(filters)) == SumSlots(filters)
    ensures filters != [] ==> filters[0] <= JoinAnd(filters)
  {
    if |filters| == 1 {
      assert SumSlots(filters[1..]) == 0;
    } else if |filters| > 1 {
      JoinAndSpec(filters[1..]);
      SlotsAppend(filters[0] + [Text(" AND ")], JoinAnd(filters[1..]));
      SlotsAppend(filters[0], [Text(" AND ")]);
    }
  }

  lemma {:induction false} SumSlotsAppend(filters: seq<Sql>, f: Sql)
    ensures SumSlots(filters + [f]) == SumSlots(filters) + Slots(f)
  {
    if filters != [] {
      assert (filters + [f])[1..] == filters[1..] + [f];
      SumSlotsAppend(filters[1..], f);
    }
  }

  // ---------------------------------------------------------------------
  // list_models

  /** The two statements `list_models` runs, with the values bound to their placeholders. */
  datatype ListQuery = ListQuery(
    whereClause: Sql,
    params: seq<SqlParam>,
    countSql: Sql,
    pageSql: Sql,
    pageParams: seq<SqlParam>)

  const ModelColumns: Sql :=
    [Text("SELECT model_id, provider, model_name, description, tags, created_at, downloads, likes, model_card_url FROM models")]
  const CountModels: Sql := [Text("SELECT COUNT(*) AS total FROM models")]
  const ProviderFilter: Sql := [Text("provider = "), Slot]
  const TagFilter: Sql := [Text("tags ILIKE "), Slot]
  const SearchFilter: Sql := [Text("(model_name ILIKE "), Slot, Text(" OR description ILIKE "), Slot, Text(")")]
  const ListPaging: Sql := [Text(" ORDER BY created_at DESC LIMIT "), Slot, Text(" OFFSET "), Slot]

  /** `f"%{s}%"`: an `ILIKE` pattern matching any text containing `s`. */
  function Like(s: string): string {
    "%" + s + "%"
  }

  /** How many values each filter of `list_models` binds. */
  lemma ListFilterFragments()
    ensures Slots(ProviderFilter) == 1 && Slots(TagFilter) == 1 && Slots(SearchFilter) == 2
  {
  }

  /** How many values each fixed piece of the `list_models` statements binds. */
  lemma ListFragments()
    ensures Slots(ModelColumns) == 0 && Slots(CountModels) == 0 && Slots(ListPaging) == 2
  {
  }

  /** `" WHERE " + " AND ".join(filters)` when there are filters, and nothing otherwise. */
  function WhereClause(filters: seq<Sql>): Sql {
    if filters == [] then [] else [Text(" WHERE ")] + JoinAnd(filters)
  }

  lemma WhereClauseSpec(filters: seq<Sql>)
    ensures Slots(WhereClause(filters)) == SumSlots(filters)
    ensures WhereClause(filters) == [] <==> filters == []
  {
    if filters != [] {
      JoinAndSpec(filters);
      SlotsAppend([Text(" WHERE ")], JoinAnd(filters));
    }
  }

  /**
   * The filter building of `list_models`: each given filter appends its
   * clause to `filters` and its values to `params`, in the order provider,
   * tag, search; the search pattern is bound twice, once per column.
   */
  method ListFilters(provider: Option<string>, tag: Option<string>, search: Option<string>)
    returns (filters: seq<Sql>, params: seq<SqlParam>)
    ensures params ==
      (if Given(provider) then [TextParam(provider.value)] else [])
      + (if Given(tag) then [TextParam(Like(tag.value))] else [])
      + (if Given(search) then [TextParam(Like(search.value)), TextParam(Like(search.value))] else [])
    ensures SumSlots(filters) == |params|
    ensures filters == [] <==> !Given(provider) && !Given(tag) && !Given(search)
  {
    ListFilterFragments();
    ghost var byProvider := if Given(provider) then [TextParam(provider.value)] else [];
    ghost var byTag := if Given(tag) then [TextParam(Like(tag.value))] else [];
    ghost var bySearch := if Given(search) then [TextParam(Like(search.value)), TextParam(Like(search.value))] else [];
    filters := [];
    params := [];
    if Given(provider) {
      filters := filters + [ProviderFilter];
      params := params + [TextParam(provider.value)];
    }
    assert params == byProvider && SumSlots(filters) == |params|;
    if Given(tag) {
      SumSlotsAppend(filters, TagFilter);
      filters := filters + [TagFilter];
      params := params + [TextParam(Like(tag.value))];
    }
    assert params == byProvider + byTag && SumSlots(filters) == |params|;
    if Given(search) {
      SumSlotsAppend(filters, SearchFilter);
      filters := filters + [SearchFilter];
      params := params + [TextParam(Like(search.value)), TextParam(Like(search.value))];
    }
    assert params == byProvider + byTag + bySearch;
  }

  /**
   * The statements of `list_models`: the count query and the page query share
   * the filter clause, `" WHERE " + " AND ".join(filters)` or nothing, and
   * the page query adds `LIMIT %s OFFSET %s` bound to the page size and the
   * offset. Every statement binds exactly as many values as it has
   * placeholders. Page bounds are the endpoint's `Query(ge=1)` and
   * `Query(ge=1, le=100)` validations.
   */
  method ListModelsQuery(page: int, pageSize: int, provider: Option<string>, tag: Option<string>, search: Option<string>)
    returns (q: ListQuery)
    requires page >= 1 && 1 <= pageSize <= 100
    ensures q.params ==
      (if Given(provider) then [TextParam(provider.value)] else [])
      + (if Given(tag) then [TextParam(Like(tag.value))] else [])
      + (if Given(search) then [TextParam(Like(search.value)), TextParam(Like(search.value))] else [])
    ensures Slots(q.whereClause) == |q.params|
    ensures Slots(q.countSql) == |q.params|
    ensures Slots(q.pageSql) == |q.pageParams|
    ensures q.whereClause == [] <==> !Given(provider) && !Given(tag) && !Given(search)
    ensures q.pageParams == q.params + [IntParam(pageSize), IntParam((page - 1) * pageSize)]
  {
    var filters, params := ListFilters(provider, tag, search);
    ListFragments();
    var whereClause := WhereClause(filters);
    WhereClauseSpec(filters);
    SlotsAppend(CountModels, whereClause);
    SlotsAppend(ModelColumns, whereClause);
    SlotsAppend(ModelColumns + whereClause, ListPaging);
    q := ListQuery(whereClause, params, CountModels + whereClause, ModelColumns + whereClause + ListPaging,
      params + [IntParam(pageSize), IntParam((page - 1) * pageSize)]);
  }

  // ---------------------------------------------------------------------
  // timeline_models

  /** The statements `timeline_models` runs and the window it reports. */
  datatype TimelineQuery = TimelineQuery(
    window: Window,
    whereClause: Sql,
    params: seq<SqlParam>,
    order: string,
    countSql: Sql,
    pageSql: Sql,
    pageParams: seq<SqlParam>,
    preset: string)

  const WindowFilter: Sql := [Text("m.created_at BETWEEN "), Slot, Text(" AND "), Slot]
  const TimelineProviderFilter: Sql := [Text("m.provider = "), Slot]
  const TimelineNameFilter: Sql := [Text("m.model_name ILIKE "), Slot]
  const CountTimeline: Sql := [Text("SELECT COUNT(*) AS total FROM models AS m WHERE ")]
  const TimelineColumns: Sql :=
    [Text("SELECT m.model_id, m.provider, m.model_name, m.description, m.tags, m.created_at, m.model_card_url, p.avatar_url FROM models AS m LEFT JOIN providers AS p ON m.provider = p.provider_id WHERE ")]

  /** `ORDER BY m.created_at {order} LIMIT %s OFFSET %s`. */
  function TimelinePaging(order: string): Sql {
    [Text(" ORDER BY m.created_at " + order + " LIMIT "), Slot, Text(" OFFSET "), Slot]
  }

  /** How many values each filter of `timeline_models` binds. */
  lemma TimelineFilterFragments()
    ensures Slots(WindowFilter) == 2 && Slots(TimelineProviderFilter) == 1 && Slots(TimelineNameFilter) == 1
  {
  }

  /** How many values each fixed piece of the `timeline_models` statements binds. */
  lemma TimelineFragments(order: string)
    ensures Slots(CountTimeline) == 0 && Slots(TimelineColumns) == 0 && Slots(TimelinePaging(order)) == 2
  {
    var paging := TimelinePaging(order);
    assert Slots(paging[3..]) == 1;
    assert Slots(paging[2..]) == 1;
    assert Slots(paging[1..]) == 2;
  }

  /**
   * The filter building of `timeline_models`: the window filter bound to its
   * start and end always comes first, then the provider and the model-name
   * filters when given, one value each.
   */
  method TimelineFilters(window: Window, provider: Option<string>, modelName: Option<string>)
    returns (filters: seq<Sql>, params: seq<SqlParam>)
    ensures params ==
      [InstantParam(window.startsAt), InstantParam(window.endsAt)]
      + (if Given(provider) then [TextParam(provider.value)] else [])
      + (if Given(modelName) then [TextParam(Like(modelName.value))] else [])
    ensures filters != [] && filters[0] == WindowFilter
    ensures SumSlots(filters) == |params|
  {
    TimelineFilterFragments();
    ghost var byWindow := [InstantParam(window.startsAt), InstantParam(window.endsAt)];
    ghost var byProvider := if Given(provider) then [TextParam(provider.value)] else [];
    ghost var byName := if Given(modelName) then [TextParam(Like(modelName.value))] else [];
    filters := [WindowFilter];
    params := [InstantParam(window.startsAt), InstantParam(window.endsAt)];
    assert SumSlots(filters) == 2;
    if Given(provider) {
      SumSlotsAppend(filters, TimelineProviderFilter);
      filters := filters + [TimelineProviderFilter];
      params := params + [TextParam(provider.value)];
    }
    assert params == byWindow + byProvider && SumSlots(filters) == |params| && filters[0] == WindowFilter;
    if Given(modelName) {
      SumSlotsAppend(filters, TimelineNameFilter);
      filters := filters + [TimelineNameFilter];
      params := params + [TextParam(Like(modelName.value))];
    }
    assert params == byWindow + byProvider + byName;
  }

  /**
   * The statements `timeline_models` runs for a window, its filters and
   * their values: the count query and the page query share the joined
   * filters, and the page query adds `LIMIT %s OFFSET %s` bound to the page
   * size and the offset.
   */
  method TimelineStatements(
    window: Window, filters: seq<Sql>, params: seq<SqlParam>, order: string, preset: string, page: int, pageSize: int)
    returns (q: TimelineQuery)
    requires filters != [] && filters[0] == WindowFilter && SumSlots(filters) == |params|
    ensures q.window == window && q.params == params && q.order == order && q.preset == preset
    ensures WindowFilter <= q.whereClause
    ensures Slots(q.whereClause) == |q.params|
    ensures Slots(q.countSql) == |q.params|
    ensures Slots(q.pageSql) == |q.pageParams|
    ensures q.pageParams == q.params + [IntParam(pageSize), IntParam((page - 1) * pageSize)]
  {
    TimelineFragments(order);
    var whereClause := JoinAnd(filters);
    JoinAndSpec(filters);
    SlotsAppend(CountTimeline, whereClause);
    SlotsAppend(TimelineColumns, whereClause);
    SlotsAppend(TimelineColumns + whereClause, TimelinePaging(order));
    q := TimelineQuery(window, whereClause, params, order, CountTimeline + whereClause,
      TimelineColumns + whereClause + TimelinePaging(order),
      params + [IntParam(pageSize), IntParam((page - 1) * pageSize)], preset);
  }

  /**
   * The query building of `timeline_models`: the window comes from the
   * preset or the year, the filters are joined with " AND " after the window
   * filter, the order is ascending only for `sort == "asc"`, every statement
   * binds exactly as many values as it has placeholders, and the reported
   * preset is "year" whenever a year was given. Page bounds are the
   * endpoint's `Query` validations.
   */
  method TimelineModelsQuery(
    preset: string, year: Option<int>, now: DateTime, page: int, pageSize: int, sort: string,
    provider: Option<string>, modelName: Option<string>)
    returns (r: Result<TimelineQuery>)
    requires now.Valid()
    requires page >= 1 && 10 <= pageSize <= 500
    ensures TimelineWindow(preset, year, now).Err? <==> r.Err?
    ensures r.Ok? ==>
      var q := r.value;
      && q.window == TimelineWindow(preset, year, now).value
      && WindowFilter <= q.whereClause
      && q.params ==
        [InstantParam(q.window.startsAt), InstantParam(q.window.endsAt)]
        + (if Given(provider) then [TextParam(provider.value)] else [])
        + (if Given(modelName) then [TextParam(Like(modelName.value))] else [])
      && Slots(q.whereClause) == |q.params|
      && Slots(q.countSql) == |q.params|
      && Slots(q.pageSql) == |q.pageParams|
      && q.pageParams == q.params + [IntParam(pageSize), IntParam((page - 1) * pageSize)]
      && (q.order == "ASC" <==> sort == "asc")
      && (q.order == "DESC" <==> sort != "asc")
      && q.preset == (if year.Some? then "year" else preset)
  {
    var w := TimelineWindow(preset, year, now);
    if w.Err? {
      return Err(w.error);
    }
    var window := w.value;
    var order := if sort == "asc" then "ASC" else "DESC";
    var filters, params := TimelineFilters(window, provider, modelName);
    var q := TimelineStatements(window, filters, params, order, if year.Some? then "year" else preset, page, pageSize);
    r := Ok(q);
  }

  // ---------------------------------------------------------------------
  // provider_avatar

  /**
   * `AVATAR_CACHE_TTL` and `AVATAR_MAX_BYTES`, read from the environment
   * (86400 seconds and 524288 bytes when unset).
   */
  datatype AvatarConfig = AvatarConfig(cacheTtl: int, maxBytes: int)

  /** What the HTTP client returns for the avatar URL. */
  datatype Upstream = Upstream(
    status: int,
    content: seq<Byte>,
    contentType: Option<string>,
    etag: Option<string>,
    lastModified: Option<string>)

  datatype Fetch = RequestError(message: string) | Fetched(response: Upstream)

  datatype AvatarReply =
    | HttpError(status: int, detail: string)
    | Image(content: seq<Byte>, mediaType: string, headers: seq<(string, string)>)

  /**
   * The error an upstream status turns into, if any: 404 stays 404, a server
   * error becomes 502 Bad Gateway, any other 4xx passes through.
   */
  function UpstreamError(status: int): (r: Option<int>)
    ensures r.Some? <==> status >= 400
    ensures status == 404 ==> r == Some(404)
    ensures status >= 500 ==> r == Some(502)
    ensures 400 <= status < 500 ==> r == Some(status)
    ensures r.Some? ==> 400 <= r.value < 600
  {
    if status == 404 then Some(404)
    else if status >= 500 then Some(502)
    else if status >= 400 then Some(status)
    else None
  }

  function CacheControl(cfg: AvatarConfig): (string, string) {
    ("Cache-Control", "public, max-age=" + IntToString(cfg.cacheTtl))
  }

  /** The `ETag` and `Last-Modified` headers copied from upstream when present and non-empty. */
  function ForwardedHeaders(up: Upstream): seq<(string, string)> {
    (if Given(up.etag) then [("ETag", up.etag.value)] else [])
      + (if Given(up.lastModified) then [("Last-Modified", up.lastModified.value)] else [])
  }

  /**
   * `provider_avatar`: serve the cached blob if there is one, else fetch the
   * avatar URL through `fetch`, map upstream failures to HTTP errors, and
   * cache a body no larger than `AVATAR_MAX_BYTES` before serving it.
   */
  method ProviderAvatar(db: Database, providerId: string, cfg: AvatarConfig, fetch: string -> Fetch)
    returns (reply: AvatarReply)
    modifies db`providers
    ensures providerId !in old(db.providers) ==> reply == HttpError(404, "Provider not found") && db.providers == old(db.providers)
    ensures providerId in old(db.providers) ==>
      var row := old(db.providers)[providerId];
      if row.avatarBlob.Some? && row.avatarBlob.value != [] then
        && reply == Image(row.avatarBlob.value, if Given(row.avatarMime) then row.avatarMime.value else "image/png", [CacheControl(cfg)])
        && db.providers == old(db.providers)
      else if !Given(row.avatarUrl) then
        reply == HttpError(404, "Avatar unavailable") && db.providers == old(db.providers)
      else match fetch(row.avatarUrl.value)
        case RequestError(_) => reply.HttpError? && reply.status == 502 && db.providers == old(db.providers)
        case Fetched(up) =>
          var mime := if up.contentType.Some? then up.contentType.value else "image/png";
          if UpstreamError(up.status).Some? then
            reply.HttpError? && reply.status == UpstreamError(up.status).value && db.providers == old(db.providers)
          else
            && reply == Image(up.content, mime, [CacheControl(cfg)] + ForwardedHeaders(up))
            && (|up.content| <= cfg.maxBytes ==>
                 db.providers == old(db.providers)[providerId := row.(avatarBlob := Some(up.content), avatarMime := Some(mime))])
            && (|up.content| > cfg.maxBytes ==> db.providers == old(db.providers))
  {
    if providerId !in db.providers {
      return HttpError(404, "Provider not found");
    }
    var row := db.providers[providerId];
    if row.avatarBlob.Some? && row.avatarBlob.value != [] {
      var mime := if Given(row.avatarMime) then row.avatarMime.value else "image/png";
      return Image(row.avatarBlob.value, mime, [CacheControl(cfg)]);
    }
    if !Given(row.avatarUrl) {
      return HttpError(404, "Avatar unavailable");
    }
    var outcome := fetch(row.avatarUrl.value);
    if outcome.RequestError? {
      return HttpError(502, "Failed to fetch avatar: " + outcome.message);
    }
    var up := outcome.response;
    if up.status == 404 {
      return HttpError(404, "Avatar not found");
    }
    if up.status >= 500 {
      return HttpError(502, "Avatar provider error");
    }
    if up.status >= 400 {
      return HttpError(up.status, "Avatar fetch error");
    }
    var mime := if up.contentType.Some? then up.contentType.value else "image/png";
    if |up.content| <= cfg.maxBytes {
      db.CacheAvatar(providerId, up.content, mime);
    }
    reply := Image(up.content, mime, [CacheControl(cfg)] + ForwardedHeaders(up));
  }
}

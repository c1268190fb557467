/**
 * The client's request layer: how a failed HTTP reply becomes an error
 * message, how `getById` turns every failure into null, how `getAll` builds
 * its query string from optional filters, the endpoints of the featured and
 * trending lists, and `getBySeriesName`, which filters the full list by
 * series and orders it by season.
 *
 * HTTP is abstracted as a `server` function from the requested URL to the
 * reply the client receives.
 */
module Api {
  import opened Results
  import opened Text
  import Schema

  const ApiBase: string := "/api"
  const RequestFailed: string := "Request failed"

  // ---------------------------------------------------------------------------
  // fetchApi

  /**
   * The body of a non-ok reply: not JSON at all; JSON `null`, whose `error`
   * field cannot be read, so the read throws a `TypeError` with the host's
   * message `thrown`; or any other JSON value, with or without a string
   * `error` field.
   */
  datatype ErrorBody = Unreadable | NullJson(thrown: string) | ErrorJson(error: Option<string>)

  /** What `fetch` yields for one request. */
  datatype Reply<T> =
    | Delivered(data: T)               // ok status, body parsed as T
    | Unparsable(message: string)      // ok status, but `response.json()` rejects
    | Refused(body: ErrorBody)         // non-ok status
    | NetworkFailure(message: string)  // `fetch` itself rejects

  /** The message of the error `fetchApi` throws for a non-ok reply. */
  function ErrorMessage(body: ErrorBody): (m: string)
    ensures body.NullJson? ==> m == body.thrown
    ensures !body.NullJson? ==> m != ""
    ensures body.ErrorJson? && body.error.Some? && body.error.value != "" ==> m == body.error.value
    ensures body.Unreadable? || (body.ErrorJson? && (body.error.None? || body.error.value == "")) ==>
      m == RequestFailed
  {
    match body
    case Unreadable => RequestFailed
    case NullJson(thrown) => thrown
    case ErrorJson(e) => if e.Some? && e.value != "" then e.value else RequestFailed
  }

  /** `fetchApi(endpoint)`: the parsed body of an ok reply, otherwise the error it throws. */
  function FetchApi<T>(endpoint: string, server: string -> Reply<T>): (r: Result<T, string>)
    ensures r.Ok? <==> server(ApiBase + endpoint).Delivered?
    ensures r.Ok? ==> r.value == server(ApiBase + endpoint).data
    ensures server(ApiBase + endpoint).Refused? ==> r == Err(ErrorMessage(server(ApiBase + endpoint).body))
    ensures server(ApiBase + endpoint).NetworkFailure? ==> r == Err(server(ApiBase + endpoint).message)
    ensures server(ApiBase + endpoint).Unparsable? ==> r == Err(server(ApiBase + endpoint).message)
  {
    match server(ApiBase + endpoint)
    case Delivered(data) => Ok(data)
    case Unparsable(message) => Err(message)
    case Refused(body) => Err(ErrorMessage(body))
    case NetworkFailure(message) => Err(message)
  }

  // ---------------------------------------------------------------------------
  // getById: null on any failure

  function FetchOrNull<T>(endpoint: string, server: string -> Reply<T>): (r: Option<T>)
    ensures r.Some? <==> FetchApi(endpoint, server).Ok?
    ensures r.Some? ==> r.value == FetchApi(endpoint, server).value
  {
    match FetchApi(endpoint, server)
    case Ok(v) => Some(v)
    case Err(_) => None
  }

  /** `animeApi.getById`. */
  function GetAnimeById(id: string, server: string -> Reply<Schema.Anime>): (r: Option<Schema.Anime>)
    ensures r.None? <==> !server("/api/anime/" + id).Delivered?
    ensures r.Some? ==> server("/api/anime/" + id) == Delivered(r.value)
  {
    assert ApiBase + ("/anime/" + id) == "/api/anime/" + id;
    FetchOrNull("/anime/" + id, server)
  }

  /** `episodeApi.getById`. */
  function GetEpisodeById(id: string, server: string -> Reply<Schema.Episode>): (r: Option<Schema.Episode>)
    ensures r.None? <==> !server("/api/episodes/" + id).Delivered?
    ensures r.Some? ==> server("/api/episodes/" + id) == Delivered(r.value)
  {
    assert ApiBase + ("/episodes/" + id) == "/api/episodes/" + id;
    FetchOrNull("/episodes/" + id, server)
  }

  /** `profileApi.getById`. */
  function GetProfileById(id: string, server: string -> Reply<Schema.Profile>): (r: Option<Schema.Profile>)
    ensures r.None? <==> !server("/api/profiles/" + id).Delivered?
    ensures r.Some? ==> server("/api/profiles/" + id) == Delivered(r.value)
  {
    assert ApiBase + ("/profiles/" + id) == "/api/profiles/" + id;
    FetchOrNull("/profiles/" + id, server)
  }

  // ---------------------------------------------------------------------------
  // URLSearchParams

  type Entry = (string, string)

  predicate Named(es: seq<Entry>, name: string) {
    exists i :: 0 <= i < |es| && es[i].0 == name
  }

  /** The entries not called `name`, in order. */
  function Without(es: seq<Entry>, name: string): (r: seq<Entry>)
    ensures !Named(r, name)
    ensures forall e :: e in r <==> e in es && e.0 != name
    ensures |r| <= |es|
  {
    if es == [] then []
    else if es[0].0 == name then Without(es[1..], name)
    else [es[0]] + Without(es[1..], name)
  }

  /** The entries called `name`, in order. */
  function Only(es: seq<Entry>, name: string): seq<Entry> {
    if es == [] then []
    else if es[0].0 == name then [es[0]] + Only(es[1..], name)
    else Only(es[1..], name)
  }

  /**
   * `set(name, value)`: the first entry called `name` takes the new value and
   * later ones are dropped; without such an entry the pair is appended.
   */
  function WithEntry(es: seq<Entry>, name: string, value: string): seq<Entry> {
    if es == [] then [(name, value)]
    else if es[0].0 == name then [(name, value)] + Without(es[1..], name)
    else [es[0]] + WithEntry(es[1..], name, value)
  }

  /** `toString()`: `name=value` fields joined by `&` (percent-encoding not modelled). */
  function Serialize(es: seq<Entry>): (q: string)
    ensures q == "" <==> es == []
  {
    if es == [] then ""
    else if |es| == 1 then es[0].0 + "=" + es[0].1
    else Serialize(es[..|es| - 1]) + "&" + es[|es| - 1].0 + "=" + es[|es| - 1].1
  }

  lemma {:induction false} WithoutAbsent(es: seq<Entry>, name: string)
    requires !Named(es, name)
    ensures Without(es, name) == es
  {
    if es != [] {
      assert !Named(es[1..], name) by {
        forall i | 0 <= i < |es[1..]| ensures es[1..][i].0 != name {
          assert es[1..][i] == es[i + 1];
        }
      }
      WithoutAbsent(es[1..], name);
    }
  }

  /** Setting a name not yet present appends it. */
  lemma {:induction false} WithEntryAppends(es: seq<Entry>, name: string, value: string)
    requires !Named(es, name)
    ensures WithEntry(es, name, value) == es + [(name, value)]
  {
    if es != [] {
      assert es[0].0 != name;
      assert !Named(es[1..], name) by {
        forall i | 0 <= i < |es[1..]| ensures es[1..][i].0 != name {
          assert es[1..][i] == es[i + 1];
        }
      }
      WithEntryAppends(es[1..], name, value);
      assert es == [es[0]] + es[1..];
    }
  }

  /** After `set`, `name` has exactly the one new value and every other entry is as before, in order. */
  lemma {:induction false} WithEntrySetsOne(es: seq<Entry>, name: string, value: string)
    ensures Only(WithEntry(es, name, value), name) == [(name, value)]
    ensures Without(WithEntry(es, name, value), name) == Without(es, name)
  {
    if es == [] {
    } else if es[0].0 == name {
      var rest := Without(es[1..], name);
      OnlyWithout(es[1..], name);
      WithoutAbsent(rest, name);
    } else {
      WithEntrySetsOne(es[1..], name, value);
    }
  }

  /** Removing a name keeps order: it acts on each part of a concatenation separately. */
  lemma {:induction false} WithoutAppend(a: seq<Entry>, b: seq<Entry>, name: string)
    ensures Without(a + b, name) == Without(a, name) + Without(b, name)
  {
    if a != [] {
      assert (a + b)[1..] == a[1..] + b;
      WithoutAppend(a[1..], b, name);
    } else {
      assert a + b == b;
    }
  }

  lemma {:induction false} OnlyWithout(es: seq<Entry>, name: string)
    ensures Only(Without(es, name), name) == []
  {
    if es != [] {
      OnlyWithout(es[1..], name);
    }
  }

  class SearchParams {
    var entries: seq<Entry>

    constructor ()
      ensures entries == []
    {
      entries := [];
    }

    method Set(name: string, value: string)
      modifies this
      ensures entries == WithEntry(old(entries), name, value)
    {
      entries := WithEntry(entries, name, value);
    }

    method ToString() returns (q: string)
      ensures q == Serialize(entries)
    {
      q := "";
      var i := 0;
      while i < |entries|
        invariant 0 <= i <= |entries|
        invariant q == Serialize(entries[..i])
      {
        assert entries[..i + 1][..i] == entries[..i];
        if i > 0 {
          q := q + "&";
        }
        q := q + entries[i].0 + "=" + entries[i].1;
        i := i + 1;
      }
      assert entries[..i] == entries;
    }
  }

  // ---------------------------------------------------------------------------
  // getAll: the query string

  datatype Filters = Filters(
    genres: Option<seq<string>>,
    season: Option<string>,
    year: Option<int>,
    status: Option<string>,
    search: Option<string>,
    content_type: Option<Schema.ContentType>,
    limit: Option<int>,
    offset: Option<int>)

  const NoFilters := Filters(None, None, None, None, None, None, None, None)

  /** The parameters `getAll` may send, in the order it sets them. */
  const ParamOrder: seq<string> := ["genres", "season", "year", "status", "search", "content_type", "limit", "offset"]

  /** A string filter is sent when it is truthy: present and non-empty. */
  function TextParam(v: Option<string>): Option<string> {
    if v.Some? && v.value != "" then v else None
  }

  /** A number filter is sent when it is truthy: present and not 0. */
  function NumberParam(v: Option<int>): Option<string> {
    if v.Some? && v.value != 0 then Some(IntToString(v.value)) else None
  }

  /** The value `getAll` sends for parameter `ParamOrder[i]`, or None when it leaves it out. */
  function ParamValue(f: Filters, i: nat): Option<string>
    requires i < |ParamOrder|
  {
    match i
    case 0 => if f.genres.Some? && |f.genres.value| > 0 then Some(Join(f.genres.value, ',')) else None
    case 1 => TextParam(f.season)
    case 2 => NumberParam(f.year)
    case 3 => TextParam(f.status)
    case 4 => TextParam(f.search)
    case 5 => if f.content_type.Some? then Some(Schema.ContentTypeLabel(f.content_type.value)) else None
    case 6 => NumberParam(f.limit)
    case _ => NumberParam(f.offset)
  }

  /** The entry `getAll` sends for parameter `ParamOrder[i]`: one, or none. */
  function Piece(f: Filters, i: nat): seq<Entry>
    requires i < |ParamOrder|
  {
    if ParamValue(f, i).Some? then [(ParamOrder[i], ParamValue(f, i).value)] else []
  }

  /** The entries for the first `n` parameters of `ParamOrder` that are sent, in that order. */
  function QueryEntries(f: Filters, n: nat): seq<Entry>
    requires n <= |ParamOrder|
  {
    if n == 0 then [] else QueryEntries(f, n - 1) + Piece(f, n - 1)
  }

  /** The query entries `getAll(filters)` sends. */
  function Query(filters: Option<Filters>): seq<Entry> {
    QueryEntries(filters.GetOr(NoFilters), |ParamOrder|)
  }

  /** `/anime`, with `?query` appended when the query string is not empty. */
  function AnimePath(queryString: string): string {
    "/anime" + (if queryString != "" then "?" + queryString else "")
  }

  /** The endpoint `getAll(filters)` requests. */
  function ListEndpoint(filters: Option<Filters>): string {
    AnimePath(Serialize(Query(filters)))
  }

  /** Every entry in `es` is named by one of the first `i` parameters. */
  predicate NamedBefore(es: seq<Entry>, i: nat)
    requires i <= |ParamOrder|
  {
    forall j :: 0 <= j < |es| ==> es[j].0 in ParamOrder[..i]
  }

  /** No parameter name occurs twice in `ParamOrder`. */
  lemma ParamOrderDistinct(i: nat)
    requires i < |ParamOrder|
    ensures ParamOrder[i] !in ParamOrder[..i]
  {
  }

  /**
   * After the first `i` parameters, considering parameter `i` is one `params.set`
   * call that appends, or none.
   */
  lemma SetStep(f: Filters, i: nat, es: seq<Entry>)
    requires i < |ParamOrder| && NamedBefore(es, i)
    ensures ParamValue(f, i).Some? ==> WithEntry(es, ParamOrder[i], ParamValue(f, i).value) == es + Piece(f, i)
    ensures NamedBefore(es + Piece(f, i), i + 1)
  {
    ParamOrderDistinct(i);
    assert ParamOrder[..i] <= ParamOrder[..i + 1];
    if ParamValue(f, i).Some? {
      WithEntryAppends(es, ParamOrder[i], ParamValue(f, i).value);
    }
  }

  /**
   * One `if (filters?.<name>) params.set(<name>, <value>)` line of `getAll`,
   * for parameter `ParamOrder[i]`: after it, `params` holds the query entries
   * of the first `i + 1` parameters.
   */
  method SetWhenSent(params: SearchParams, f: Filters, i: nat)
    requires i < |ParamOrder| && params.entries == QueryEntries(f, i)
    modifies params
    ensures params.entries == QueryEntries(f, i + 1)
  {
    QueryEntriesNamedBefore(f, i);
    SetStep(f, i, params.entries);
    var value := ParamValue(f, i);
    if value.Some? {
      params.Set(ParamOrder[i], value.value);
    }
  }

  /** `getAll(filters)`: the endpoint it requests, built as the source builds it. */
  method GetAllEndpoint(filters: Option<Filters>) returns (endpoint: string)
    ensures endpoint == ListEndpoint(filters)
  {
    var f := filters.GetOr(NoFilters);
    var params := new SearchParams();
    SetWhenSent(params, f, 0);  // genres, joined with ','
    SetWhenSent(params, f, 1);  // season
    SetWhenSent(params, f, 2);  // year
    SetWhenSent(params, f, 3);  // status
    SetWhenSent(params, f, 4);  // search
    SetWhenSent(params, f, 5);  // content_type
    SetWhenSent(params, f, 6);  // limit
    SetWhenSent(params, f, 7);  // offset
    var queryString := params.ToString();
    endpoint := "/anime" + (if queryString != "" then "?" + queryString else "");
  }

  /** The position of a parameter name in `ParamOrder`, or `|ParamOrder|` for any other name. */
  function ParamIndex(name: string): (k: nat)
    ensures k <= |ParamOrder|
    ensures k < |ParamOrder| ==> ParamOrder[k] == name
  {
    if name == "genres" then 0
    else if name == "season" then 1
    else if name == "year" then 2
    else if name == "status" then 3
    else if name == "search" then 4
    else if name == "content_type" then 5
    else if name == "limit" then 6
    else if name == "offset" then 7
    else 8
  }

  lemma ParamIndexOf(i: nat)
    requires i < |ParamOrder|
    ensures ParamIndex(ParamOrder[i]) == i
  {
  }

  lemma {:induction false} QueryEntriesNamedBefore(f: Filters, n: nat)
    requires n <= |ParamOrder|
    ensures NamedBefore(QueryEntries(f, n), n)
  {
    if n > 0 {
      QueryEntriesNamedBefore(f, n - 1);
      SetStep(f, n - 1, QueryEntries(f, n - 1));
    }
  }

  /** Parameter `i` is among the first `n` entries with a value exactly when `getAll` sends it with that value. */
  lemma {:induction false} QueryEntriesHas(f: Filters, n: nat, i: nat, value: string)
    requires i < n <= |ParamOrder|
    ensures (ParamOrder[i], value) in QueryEntries(f, n) <==> ParamValue(f, i) == Some(value)
  {
    var prev := QueryEntries(f, n - 1);
    var e := (ParamOrder[i], value);
    assert QueryEntries(f, n) == prev + Piece(f, n - 1);
    if i < n - 1 {
      QueryEntriesHas(f, n - 1, i, value);
      ParamIndexOf(i);
      ParamIndexOf(n - 1);
      assert e !in Piece(f, n - 1);
    } else {
      QueryEntriesNamedBefore(f, n - 1);
      ParamOrderDistinct(i);
      forall j | 0 <= j < |prev| ensures prev[j] != e {
        assert prev[j].0 in ParamOrder[..i];
      }
      assert e !in prev;
    }
  }

  /**
   * `getAll` sends parameter `ParamOrder[i]` with `value` exactly when that
   * filter is truthy and renders as `value`.
   */
  lemma QuerySendsTruthy(filters: Option<Filters>, i: nat, value: string)
    requires i < |ParamOrder|
    ensures (ParamOrder[i], value) in Query(filters) <==> ParamValue(filters.GetOr(NoFilters), i) == Some(value)
  {
    QueryEntriesHas(filters.GetOr(NoFilters), |ParamOrder|, i, value);
  }

  /** Every entry of the query is one of the known parameters. */
  lemma QueryOnlyParams(filters: Option<Filters>, e: Entry)
    requires e in Query(filters)
    ensures e.0 in ParamOrder
    ensures ParamValue(filters.GetOr(NoFilters), ParamIndex(e.0)) == Some(e.1)
  {
    var f := filters.GetOr(NoFilters);
    QueryEntriesNamedBefore(f, |ParamOrder|);
    var j :| 0 <= j < |Query(filters)| && Query(filters)[j] == e;
    assert e.0 in ParamOrder[..|ParamOrder|];
    var i :| 0 <= i < |ParamOrder| && ParamOrder[i] == e.0;
    ParamIndexOf(i);
    QueryEntriesHas(f, |ParamOrder|, i, e.1);
  }

  lemma {:induction false} QueryEntriesOrdered(f: Filters, n: nat)
    requires n <= |ParamOrder|
    ensures forall a, b :: 0 <= a < b < |QueryEntries(f, n)| ==>
      ParamIndex(QueryEntries(f, n)[a].0) < ParamIndex(QueryEntries(f, n)[b].0)
    ensures forall a :: 0 <= a < |QueryEntries(f, n)| ==> ParamIndex(QueryEntries(f, n)[a].0) < n
  {
    if n > 0 {
      var prev := QueryEntries(f, n - 1);
      var es := QueryEntries(f, n);
      QueryEntriesOrdered(f, n - 1);
      QueryEntriesNamedBefore(f, n);
      ParamIndexOf(n - 1);
      assert es == prev + Piece(f, n - 1);
      forall a | 0 <= a < |es| ensures ParamIndex(es[a].0) < n {
        assert es[a].0 in ParamOrder[..n];
        var i :| 0 <= i < n && ParamOrder[i] == es[a].0;
        ParamIndexOf(i);
      }
      forall a, b | 0 <= a < b < |es| ensures ParamIndex(es[a].0) < ParamIndex(es[b].0) {
        if b < |prev| {
          assert es[a] == prev[a] && es[b] == prev[b];
        } else {
          assert es[a] == prev[a] && es[b] == Piece(f, n - 1)[0];
        }
      }
    }
  }

  /** Parameters appear in the order genres, season, year, status, search, content_type, limit, offset, each at most once. */
  lemma QueryOrdered(filters: Option<Filters>)
    ensures forall a, b :: 0 <= a < b < |Query(filters)| ==>
      ParamIndex(Query(filters)[a].0) < ParamIndex(Query(filters)[b].0)
  {
    QueryEntriesOrdered(filters.GetOr(NoFilters), |ParamOrder|);
  }

  lemma {:induction false} QueryEntriesEmpty(f: Filters, n: nat)
    requires n <= |ParamOrder|
    ensures QueryEntries(f, n) == [] <==> forall i :: 0 <= i < n ==> ParamValue(f, i).None?
  {
    if n > 0 {
      QueryEntriesEmpty(f, n - 1);
      assert QueryEntries(f, n) == QueryEntries(f, n - 1) + Piece(f, n - 1);
    }
  }

  /** `/anime` alone exactly for the empty query string, `/anime?<query>` otherwise. */
  lemma AnimePathBare(q: string)
    ensures AnimePath(q) == "/anime" <==> q == ""
    ensures q != "" ==> AnimePath(q) == "/anime?" + q
  {
    if q != "" {
      assert |AnimePath(q)| > |"/anime"|;
      assert "/anime" + ("?" + q) == "/anime?" + q;
    }
  }

  /** The endpoint is bare `/anime` exactly when no filter is truthy, and `/anime?<query>` otherwise. */
  lemma ListEndpointShape(filters: Option<Filters>)
    ensures ListEndpoint(filters) == "/anime" <==>
      forall i :: 0 <= i < |ParamOrder| ==> ParamValue(filters.GetOr(NoFilters), i).None?
    ensures Query(filters) != [] ==> ListEndpoint(filters) == "/anime?" + Serialize(Query(filters))
  {
    var f := filters.GetOr(NoFilters);
    var es := Query(filters);
    assert es == QueryEntries(f, |ParamOrder|);
    QueryEntriesEmpty(f, |ParamOrder|);
    AnimePathBare(Serialize(es));
  }

  /** Genres are sent when the list is non-empty, as one value that splits back into the list. */
  lemma GenresReadBack(f: Filters)
    ensures ParamValue(f, 0).Some? <==> f.genres.Some? && f.genres.value != []
    ensures ParamValue(f, 0).Some? && (forall i :: 0 <= i < |f.genres.value| ==> ',' !in f.genres.value[i]) ==>
      Split(ParamValue(f, 0).value, ',') == f.genres.value
  {
    if ParamValue(f, 0).Some? && (forall i :: 0 <= i < |f.genres.value| ==> ',' !in f.genres.value[i]) {
      SplitJoin(f.genres.value, ',');
    }
  }

  /** Season, status and search are sent as given, unless absent or empty. */
  lemma TextParamsReadBack(f: Filters)
    ensures ParamValue(f, 1) == (if f.season == Some("") then None else f.season)
    ensures ParamValue(f, 3) == (if f.status == Some("") then None else f.status)
    ensures ParamValue(f, 4) == (if f.search == Some("") then None else f.search)
  {
  }

  /** Year, limit and offset are sent unless absent or 0, in decimal text that reads back as the number. */
  lemma NumberParamsReadBack(f: Filters)
    ensures ParamValue(f, 2).Some? <==> f.year.Some? && f.year.value != 0
    ensures ParamValue(f, 2).Some? ==> ParseInt(ParamValue(f, 2).value) == f.year.value
    ensures ParamValue(f, 6).Some? <==> f.limit.Some? && f.limit.value != 0
    ensures ParamValue(f, 6).Some? ==> ParseInt(ParamValue(f, 6).value) == f.limit.value
    ensures ParamValue(f, 7).Some? <==> f.offset.Some? && f.offset.value != 0
    ensures ParamValue(f, 7).Some? ==> ParseInt(ParamValue(f, 7).value) == f.offset.value
  {
    if f.year.Some? { IntToStringRoundTrip(f.year.value); }
    if f.limit.Some? { IntToStringRoundTrip(f.limit.value); }
    if f.offset.Some? { IntToStringRoundTrip(f.offset.value); }
  }

  /** A content type is always sent when given (its label is never empty), and its label parses back. */
  lemma ContentTypeReadBack(f: Filters)
    ensures ParamValue(f, 5).Some? <==> f.content_type.Some?
    ensures ParamValue(f, 5).Some? ==> Schema.ParseContentType(ParamValue(f, 5).value) == f.content_type
  {
    if f.content_type.Some? {
      match f.content_type.value
      case AnimeContent =>
      case CartoonContent =>
    }
  }

  // ---------------------------------------------------------------------------
  // getFeatured, getTrending

  /** `getFeatured(limit = 6)`. */
  function FeaturedEndpoint(limit: Option<int>): (e: string)
    ensures limit.None? ==> e == "/anime/featured?limit=6"
    ensures limit.Some? ==> e == "/anime/featured?limit=" + IntToString(limit.value)
  {
    "/anime/featured?limit=" + IntToString(limit.GetOr(6))
  }

  /** `getTrending(limit = 12)`. */
  function TrendingEndpoint(limit: Option<int>): (e: string)
    ensures limit.None? ==> e == "/anime/trending?limit=12"
    ensures limit.Some? ==> e == "/anime/trending?limit=" + IntToString(limit.value)
  {
    "/anime/trending?limit=" + IntToString(limit.GetOr(12))
  }

  // ---------------------------------------------------------------------------
  // getBySeriesName

  type Title = Schema.Anime

  /** `all.filter(a => a.series_name === name)`. */
  function InSeries(all: seq<Title>, name: string): (r: seq<Title>)
    ensures forall x :: x in r <==> x in all && x.series_name == name
    ensures multiset(r) <= multiset(all)
  {
    if all == [] then []
    else
      assert all == [all[0]] + all[1..];
      if all[0].series_name == name then [all[0]] + InSeries(all[1..], name)
      else InSeries(all[1..], name)
  }

  /** Every title of the series occurs in the result exactly as often as in the input; no other title does. */
  lemma {:induction false} InSeriesCounts(all: seq<Title>, name: string)
    ensures forall x :: multiset(InSeries(all, name))[x] == if x.series_name == name then multiset(all)[x] else 0
  {
    if all != [] {
      InSeriesCounts(all[1..], name);
      assert all == [all[0]] + all[1..];
      assert multiset(all) == multiset{all[0]} + multiset(all[1..]);
      var head := if all[0].series_name == name then [all[0]] else [];
      assert InSeries(all, name) == head + InSeries(all[1..], name);
      assert multiset(InSeries(all, name)) == multiset(head) + multiset(InSeries(all[1..], name));
    }
  }

  /** Filtering keeps input order: the filter of a concatenation is the concatenation of the filters. */
  lemma {:induction false} InSeriesAppend(a: seq<Title>, b: seq<Title>, name: string)
    ensures InSeries(a + b, name) == InSeries(a, name) + InSeries(b, name)
  {
    if a == [] {
      assert a + b == b;
    } else {
      var c := a + b;
      assert c != [] && c[0] == a[0] && c[1..] == a[1..] + b;
      InSeriesAppend(a[1..], b, name);
      var head := if a[0].series_name == name then [a[0]] else [];
      calc {
        InSeries(c, name);
        head + InSeries(a[1..] + b, name);
        head + (InSeries(a[1..], name) + InSeries(b, name));
        (head + InSeries(a[1..], name)) + InSeries(b, name);
      }
    }
  }

  /** A title of the series, alone, is kept; any other is dropped. */
  lemma InSeriesOne(x: Title, name: string)
    ensures InSeries([x], name) == if x.series_name == name then [x] else []
  {
    assert [x][1..] == [];
  }

  predicate SortedBySeason(xs: seq<Title>) {
    forall i, j :: 0 <= i < j < |xs| ==> xs[i].season_number <= xs[j].season_number
  }

  /** The titles of `xs` with season number `k`, in order. */
  function WithSeason(xs: seq<Title>, k: int): (r: seq<Title>)
    ensures forall x :: x in r <==> x in xs && x.season_number == k
  {
    if xs == [] then []
    else if xs[0].season_number == k then [xs[0]] + WithSeason(xs[1..], k)
    else WithSeason(xs[1..], k)
  }

  /** The tail of a sorted sequence is sorted and no title in it has a lower season than the head. */
  lemma SortedTail(ys: seq<Title>)
    requires SortedBySeason(ys) && ys != []
    ensures SortedBySeason(ys[1..])
    ensures forall z :: z in ys[1..] ==> ys[0].season_number <= z.season_number
  {
    forall i, j | 0 <= i < j < |ys[1..]| ensures ys[1..][i].season_number <= ys[1..][j].season_number {
      assert ys[1..][i] == ys[i + 1] && ys[1..][j] == ys[j + 1];
    }
  }

  lemma PrependSorted(y: Title, zs: seq<Title>)
    requires SortedBySeason(zs)
    requires forall z :: z in zs ==> y.season_number <= z.season_number
    ensures SortedBySeason([y] + zs)
  {
    forall i, j | 0 <= i < j < |[y] + zs| ensures ([y] + zs)[i].season_number <= ([y] + zs)[j].season_number {
      assert ([y] + zs)[j] == zs[j - 1];
      if i > 0 {
        assert ([y] + zs)[i] == zs[i - 1];
      }
    }
  }

  lemma BoundedByMultiset(lo: int, rest: seq<Title>, ys: seq<Title>, x: Title)
    requires multiset(rest) == multiset(ys) + multiset{x}
    requires lo <= x.season_number
    requires forall z :: z in ys ==> lo <= z.season_number
    ensures forall z :: z in rest ==> lo <= z.season_number
  {
    forall z | z in rest ensures lo <= z.season_number {
      assert z in multiset(rest);
      assert z in multiset(ys) || z == x;
    }
  }

  /** Put `x` before the first title of `ys` whose season is not lower. */
  function InsertBySeason(x: Title, ys: seq<Title>): (r: seq<Title>)
    requires SortedBySeason(ys)
    ensures SortedBySeason(r)
    ensures multiset(r) == multiset(ys) + multiset{x}
  {
    if ys == [] || x.season_number <= ys[0].season_number then
      PrependSorted(x, ys);
      [x] + ys
    else
      SortedTail(ys);
      var rest := InsertBySeason(x, ys[1..]);
      assert ys == [ys[0]] + ys[1..];
      BoundedByMultiset(ys[0].season_number, rest, ys[1..], x);
      PrependSorted(ys[0], rest);
      [ys[0]] + rest
  }

  /** `.sort((a, b) => a.season_number - b.season_number)`: a stable sort by season. */
  function SortBySeason(xs: seq<Title>): (r: seq<Title>)
    ensures SortedBySeason(r)
    ensures multiset(r) == multiset(xs)
  {
    if xs == [] then []
    else
      assert xs == [xs[0]] + xs[1..];
      InsertBySeason(xs[0], SortBySeason(xs[1..]))
  }

  /** Inserting `x` puts it before every title of its own season and moves no other title of that season. */
  lemma {:induction false} InsertKeepsSeasonOrder(x: Title, ys: seq<Title>, k: int)
    requires SortedBySeason(ys)
    ensures WithSeason(InsertBySeason(x, ys), k) == (if x.season_number == k then [x] else []) + WithSeason(ys, k)
  {
    if ys == [] || x.season_number <= ys[0].season_number {
      assert ([x] + ys)[1..] == ys;
    } else {
      SortedTail(ys);
      var rest := InsertBySeason(x, ys[1..]);
      InsertKeepsSeasonOrder(x, ys[1..], k);
      assert ([ys[0]] + rest)[1..] == rest;
    }
  }

  /** The sort is stable: the titles of any one season keep their input order. */
  lemma {:induction false} SortKeepsSeasonOrder(xs: seq<Title>, k: int)
    ensures WithSeason(SortBySeason(xs), k) == WithSeason(xs, k)
  {
    if xs != [] {
      SortKeepsSeasonOrder(xs[1..], k);
      InsertKeepsSeasonOrder(xs[0], SortBySeason(xs[1..]), k);
    }
  }

  /** The series grouping: one series' titles, ordered by season. */
  function SeriesGroup(all: seq<Title>, name: string): seq<Title> {
    SortBySeason(InSeries(all, name))
  }

  /**
   * The group holds exactly the titles of the series, as a permutation of
   * the filtered list, sorted by season, with ties in input order.
   */
  lemma SeriesGroupSpec(all: seq<Title>, name: string)
    ensures forall x :: x in SeriesGroup(all, name) <==> x in all && x.series_name == name
    ensures multiset(SeriesGroup(all, name)) == multiset(InSeries(all, name))
    ensures SortedBySeason(SeriesGroup(all, name))
    ensures forall k :: WithSeason(SeriesGroup(all, name), k) == WithSeason(InSeries(all, name), k)
  {
    var r := SeriesGroup(all, name);
    forall x ensures x in r <==> x in all && x.series_name == name {
      assert x in r <==> x in multiset(r);
      assert x in InSeries(all, name) <==> x in multiset(InSeries(all, name));
    }
    forall k ensures WithSeason(r, k) == WithSeason(InSeries(all, name), k) {
      SortKeepsSeasonOrder(InSeries(all, name), k);
    }
  }

  /** `getBySeriesName(name)`: fetch every title with `getAll()`, keep one series, order by season. */
  function GetBySeriesName(name: string, server: string -> Reply<seq<Title>>): (r: Result<seq<Title>, string>)
    ensures r.Ok? <==> server("/api/anime").Delivered?
    ensures r.Ok? ==> r.value == SeriesGroup(server("/api/anime").data, name)
    ensures FetchApi("/anime", server).Err? ==> r == Err(FetchApi("/anime", server).error)
  {
    QueryEntriesEmpty(NoFilters, |ParamOrder|);
    assert ListEndpoint(None) == "/anime";
    assert ApiBase + "/anime" == "/api/anime";
    var all :- FetchApi(ListEndpoint(None), server);
    Ok(SeriesGroup(all, name))
  }
}

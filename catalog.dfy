/** The search and browse routes. Each route is a function from its query arguments,
    the genre cache and the upstream service to an Exchange: the upstream requests
    it issued, in order, and what it answered. The upstream service is a parameter
    that gives the parsed body of each request's response, or None where
    `requests.get` or `.json()` raises (the route then fails with a server error). */
module Catalog {
  import opened Basics
  import opened Text
  import opened Genres

  /** The upstream requests the routes issue, with the arguments taken from the query. */
  datatype Request =
    | TmdbMultiSearch(query: string)
    | TmdbDiscover(mediaType: string, genreId: string)
    | JikanAnimeSearch(query: string)
    | JikanAnimeByGenre(genreId: string)

  /** A parsed response body, reduced to the result lists it holds under its top-level keys. */
  type Body<T> = map<string, seq<T>>

  /** A route's answer: a results page with the text shown above it (the query, or
      the genre name), the "No genre selected!" message, or an unhandled exception. */
  datatype Response<T> = Page(results: seq<T>, heading: string) | NoGenreSelected | ServerError

  datatype Exchange<T> = Exchange(calls: seq<Request>, response: Response<T>)

  /** The key of TMDb's result lists. */
  const TmdbResultsKey := "results"
  /** The key of Jikan's result lists. */
  const JikanResultsKey := "data"

  /** `data.get(key, [])`: a missing result list reads as an empty one. */
  function ResultsOf<T>(body: Body<T>, key: string): (r: seq<T>)
    ensures key !in body ==> r == []
    ensures key in body ==> r == body[key]
  {
    if key in body then body[key] else []
  }

  /** `request.args.get(name, default)` (or the form's). */
  function ArgOr(arg: Option<string>, default: string): (r: string)
    ensures arg.None? ==> r == default
    ensures arg.Some? ==> r == arg.value
  {
    match arg
    case None => default
    case Some(v) => v
  }

  /** The text search shared by `search` (TMDb) and `search_anime` (Jikan): the query,
      stripped, is sent upstream unless it is blank, in which case the answer is an
      empty page and nothing is sent. */
  function TextSearch<T>(query: Option<string>, toRequest: string -> Request, resultsKey: string,
                         upstream: Request -> Option<Body<T>>): (x: Exchange<T>)
    ensures Blank(ArgOr(query, "")) ==> x == Exchange([], Page([], ""))
    ensures !Blank(ArgOr(query, "")) ==>
      var q := Strip(ArgOr(query, ""));
      && q != [] && !IsSpace(q[0]) && !IsSpace(q[|q| - 1])
      && x.calls == [toRequest(q)]
      && x.response == if upstream(toRequest(q)).None? then ServerError
                       else Page(ResultsOf(upstream(toRequest(q)).value, resultsKey), q)
  {
    var q := Strip(ArgOr(query, ""));
    if q == "" then Exchange([], Page([], ""))
    else
      var request := toRequest(q);
      match upstream(request)
      case None => Exchange([request], ServerError)
      case Some(body) => Exchange([request], Page(ResultsOf(body, resultsKey), q))
  }

  /** The `search` route: TMDb's multi search. */
  function Search<T>(query: Option<string>, upstream: Request -> Option<Body<T>>): (x: Exchange<T>)
    ensures Blank(ArgOr(query, "")) ==> x == Exchange([], Page([], ""))
    ensures !Blank(ArgOr(query, "")) ==>
      var q := Strip(ArgOr(query, ""));
      && x.calls == [TmdbMultiSearch(q)]
      && x.response == if upstream(TmdbMultiSearch(q)).None? then ServerError
                       else Page(ResultsOf(upstream(TmdbMultiSearch(q)).value, TmdbResultsKey), q)
  {
    TextSearch(query, (q: string) => TmdbMultiSearch(q), TmdbResultsKey, upstream)
  }

  /** The `search_anime` route: Jikan's anime search. */
  function SearchAnime<T>(query: Option<string>, upstream: Request -> Option<Body<T>>): (x: Exchange<T>)
    ensures Blank(ArgOr(query, "")) ==> x == Exchange([], Page([], ""))
    ensures !Blank(ArgOr(query, "")) ==>
      var q := Strip(ArgOr(query, ""));
      && x.calls == [JikanAnimeSearch(q)]
      && x.response == if upstream(JikanAnimeSearch(q)).None? then ServerError
                       else Page(ResultsOf(upstream(JikanAnimeSearch(q)).value, JikanResultsKey), q)
  {
    TextSearch(query, (q: string) => JikanAnimeSearch(q), JikanResultsKey, upstream)
  }

  /** The `browse_by_genre` route: an empty or missing `genre_id` is refused before any
      request; otherwise TMDb's discover is queried and then the genre name is
      resolved, which fails when `int(genre_id)` raises. `media_type` defaults to "movie". */
  function BrowseByGenre<T>(mediaType: Option<string>, genreId: Option<string>, movie: map<int, string>,
                            tv: map<int, string>, upstream: Request -> Option<Body<T>>): (x: Exchange<T>)
    ensures ArgOr(genreId, "") == "" <==> x.calls == []
    ensures ArgOr(genreId, "") == "" ==> x.response == NoGenreSelected
    ensures ArgOr(genreId, "") != "" ==>
      var request := TmdbDiscover(ArgOr(mediaType, "movie"), ArgOr(genreId, ""));
      var shown := MovieTvGenreLabel(ArgOr(mediaType, "movie"), ArgOr(genreId, ""), movie, tv);
      && x.calls == [request]
      && x.response == if upstream(request).None? || shown.None? then ServerError
                       else Page(ResultsOf(upstream(request).value, TmdbResultsKey), shown.value)
  {
    var media := ArgOr(mediaType, "movie");
    var id := ArgOr(genreId, "");
    if id == "" then Exchange([], NoGenreSelected)
    else
      var request := TmdbDiscover(media, id);
      match upstream(request)
      case None => Exchange([request], ServerError)
      case Some(body) =>
        match MovieTvGenreLabel(media, id, movie, tv)
        case None => Exchange([request], ServerError)
        case Some(shown) => Exchange([request], Page(ResultsOf(body, TmdbResultsKey), shown))
  }

  /** The `browse_anime_by_genre` route: as BrowseByGenre, against Jikan and the anime map. */
  function BrowseAnimeByGenre<T>(genreId: Option<string>, anime: map<int, string>,
                                 upstream: Request -> Option<Body<T>>): (x: Exchange<T>)
    ensures ArgOr(genreId, "") == "" <==> x.calls == []
    ensures ArgOr(genreId, "") == "" ==> x.response == NoGenreSelected
    ensures ArgOr(genreId, "") != "" ==>
      var request := JikanAnimeByGenre(ArgOr(genreId, ""));
      var shown := AnimeGenreLabel(ArgOr(genreId, ""), anime);
      && x.calls == [request]
      && x.response == if upstream(request).None? || shown.None? then ServerError
                       else Page(ResultsOf(upstream(request).value, JikanResultsKey), shown.value)
  {
    var id := ArgOr(genreId, "");
    if id == "" then Exchange([], NoGenreSelected)
    else
      var request := JikanAnimeByGenre(id);
      match upstream(request)
      case None => Exchange([request], ServerError)
      case Some(body) =>
        match AnimeGenreLabel(id, anime)
        case None => Exchange([request], ServerError)
        case Some(shown) => Exchange([request], Page(ResultsOf(body, JikanResultsKey), shown))
  }

  /** Browsing a cached movie genre by its decimal id shows the upstream results under
      that genre's cached name; an uncached id shows them under "". */
  lemma {:induction false} BrowseCachedMovieGenre<T>(k: int, movie: map<int, string>, tv: map<int, string>,
                                  upstream: Request -> Option<Body<T>>)
    requires upstream(TmdbDiscover("movie", ShowInt(k))).Some?
    ensures var body := upstream(TmdbDiscover("movie", ShowInt(k))).value;
      BrowseByGenre(None, Some(ShowInt(k)), movie, tv, upstream) ==
        Exchange([TmdbDiscover("movie", ShowInt(k))],
                 Page(ResultsOf(body, TmdbResultsKey), if k in movie then movie[k] else ""))
  {
    CachedGenreResolves(k, movie, tv, map[]);
  }

  /** Browsing a cached anime genre by its decimal id shows its cached name. */
  lemma {:induction false} BrowseCachedAnimeGenre<T>(k: int, anime: map<int, string>, upstream: Request -> Option<Body<T>>)
    requires upstream(JikanAnimeByGenre(ShowInt(k))).Some?
    ensures var body := upstream(JikanAnimeByGenre(ShowInt(k))).value;
      BrowseAnimeByGenre(Some(ShowInt(k)), anime, upstream) ==
        Exchange([JikanAnimeByGenre(ShowInt(k))],
                 Page(ResultsOf(body, JikanResultsKey), if k in anime then anime[k] else ""))
  {
    CachedGenreResolves(k, map[], map[], anime);
  }

  /** A genre id holding an information separator (U+001C here) is rejected by `int()`
      although `str.isspace()` counts the separator as whitespace: once the discover
      request has been sent, the route fails with a server error. */
  lemma {:induction false} InfoSeparatorGenreIdFails<T>(movie: map<int, string>, tv: map<int, string>,
                                                      upstream: Request -> Option<Body<T>>)
    ensures BrowseByGenre(None, Some("\U{1C}28"), movie, tv, upstream)
      == Exchange([TmdbDiscover("movie", "\U{1C}28")], ServerError)
  {
    var id := "\U{1C}28";
    assert IsInfoSeparator(id[0]);
    assert ParseInt(id) == None;
  }
}

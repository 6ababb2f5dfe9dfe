/** The genre cache: the three id-to-name maps built from the genre-list responses
    of TMDb (movie, tv) and Jikan (anime), and the genre name the browse routes show. */
module Genres {
  import opened Basics
  import opened Text

  /** One `{id, name}` object of a genre list (Jikan calls the id `mal_id`). */
  datatype GenreEntry = GenreEntry(id: int, name: string)

  /** A parsed genre-list response body, reduced to the genre lists it holds under
      its top-level keys. */
  type GenreBody = map<string, seq<GenreEntry>>

  /** The key under which TMDb's genre lists carry their entries. */
  const TmdbGenresKey := "genres"
  /** The key under which Jikan's genre list carries its entries. */
  const JikanGenresKey := "data"

  /** No later entry of the list has the id of entry i. */
  predicate LastWithItsId(entries: seq<GenreEntry>, i: nat)
    requires i < |entries|
  {
    forall j :: i < j < |entries| ==> entries[j].id != entries[i].id
  }

  /** The dict comprehension `{g["id"]: g["name"] for g in entries}`: one key per id
      in the list, mapped to the name of the last entry with that id. */
  function BuildGenreMap(entries: seq<GenreEntry>): (m: map<int, string>)
    ensures m.Keys == set e | e in entries :: e.id
    ensures forall i :: 0 <= i < |entries| && LastWithItsId(entries, i) ==> m[entries[i].id] == entries[i].name
  {
    if entries == [] then map[]
    else
      var last := entries[|entries| - 1];
      var prefix := entries[..|entries| - 1];
      assert entries == prefix + [last];
      var m := BuildGenreMap(prefix)[last.id := last.name];
      assert forall i :: 0 <= i < |prefix| && LastWithItsId(entries, i) ==> LastWithItsId(prefix, i);
      m
  }

  /** When no id repeats, every entry of the list can be looked up by its id. */
  lemma {:induction false} BuildGenreMapFindsEveryEntry(entries: seq<GenreEntry>)
    requires forall i, j :: 0 <= i < j < |entries| ==> entries[i].id != entries[j].id
    ensures forall e :: e in entries ==> e.id in BuildGenreMap(entries) && BuildGenreMap(entries)[e.id] == e.name
  {
    var m := BuildGenreMap(entries);
    forall e | e in entries ensures e.id in m && m[e.id] == e.name {
      var i :| 0 <= i < |entries| && entries[i] == e;
      assert LastWithItsId(entries, i);
    }
  }

  /** The genre name `browse_by_genre` shows: the cached movie or tv name of the
      parsed `genre_id`, or "" when the id is not cached or the media type is neither.
      None stands for the ValueError that `int(genre_id)` raises on a malformed id,
      which is only evaluated when the media type is "movie" or "tv". */
  function MovieTvGenreLabel(mediaType: string, genreId: string, movie: map<int, string>,
                             tv: map<int, string>): (r: Option<string>)
    ensures r.None? <==> (mediaType == "movie" || mediaType == "tv") && ParseInt(genreId).None?
    ensures mediaType != "movie" && mediaType != "tv" ==> r == Some("")
    ensures ParseInt(genreId).Some? ==>
      var n := ParseInt(genreId).value;
      r == Some(if mediaType == "movie" && n in movie then movie[n]
                else if mediaType == "tv" && n in tv then tv[n]
                else "")
  {
    if mediaType == "movie" then
      match ParseInt(genreId)
      case None => None
      case Some(n) => Some(if n in movie then movie[n] else "")
    else if mediaType == "tv" then
      match ParseInt(genreId)
      case None => None
      case Some(n) => Some(if n in tv then tv[n] else "")
    else Some("")
  }

  /** The genre name `browse_anime_by_genre` shows: `anime_genres.get(int(genre_id), "")`;
      None stands for the ValueError of a malformed id. */
  function AnimeGenreLabel(genreId: string, anime: map<int, string>): (r: Option<string>)
    ensures r.None? <==> ParseInt(genreId).None?
    ensures ParseInt(genreId).Some? ==>
      var n := ParseInt(genreId).value;
      r == Some(if n in anime then anime[n] else "")
  {
    match ParseInt(genreId)
    case None => None
    case Some(n) => Some(if n in anime then anime[n] else "")
  }

  /** Once `int(genre_id)` accepts the id, the name shown is the cached name of the
      parsed id, or "" when that id is not cached. */
  lemma {:induction false} ParsedGenreResolves(genreId: string, n: int, movie: map<int, string>,
                                               tv: map<int, string>, anime: map<int, string>)
    requires ParseInt(genreId) == Some(n)
    ensures MovieTvGenreLabel("movie", genreId, movie, tv) == Some(if n in movie then movie[n] else "")
    ensures MovieTvGenreLabel("tv", genreId, movie, tv) == Some(if n in tv then tv[n] else "")
    ensures AnimeGenreLabel(genreId, anime) == Some(if n in anime then anime[n] else "")
  {
  }

  /** A genre id written in decimal, as the genre pages offer it, resolves to its
      cached name for each media type, and to "" when it is not cached. */
  lemma {:induction false} CachedGenreResolves(k: int, movie: map<int, string>, tv: map<int, string>, anime: map<int, string>)
    ensures MovieTvGenreLabel("movie", ShowInt(k), movie, tv) == Some(if k in movie then movie[k] else "")
    ensures MovieTvGenreLabel("tv", ShowInt(k), movie, tv) == Some(if k in tv then tv[k] else "")
    ensures AnimeGenreLabel(ShowInt(k), anime) == Some(if k in anime then anime[k] else "")
  {
    ParseShowInt(k);
    ParsedGenreResolves(ShowInt(k), k, movie, tv, anime);
  }
}

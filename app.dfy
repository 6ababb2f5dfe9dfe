/** The application's mutable state and the routes that change it. The two database
    tables, the session of the one client being modelled, and the three global genre
    maps are fields of App; each state-changing route is a method whose new state is
    the one given by the functions of Accounts, Watchlist and Genres. */
module WebApp {
  import opened Basics
  import opened Accounts
  import opened Watchlist
  import opened Genres
  import Text

  class App {
    /** Password hashing, fixed for the life of the application. */
    const hasher: Hasher
    /** The `users` table, in insertion order. */
    var users: seq<User>
    /** The `watchlist_items` table, in insertion order. */
    var items: seq<Item>
    /** `user_id` and `username` of the Flask session, or None when they are absent. */
    var session: Option<SessionUser>
    var movieGenres: map<int, string>
    var tvGenres: map<int, string>
    var animeGenres: map<int, string>

    /** Both tables are well formed, every watchlist row belongs to a stored user, and
        a logged-in session names a stored user by its id and username. */
    ghost predicate Valid()
      reads this`users, this`items, this`session
    {
      && Accounts.WellFormed(users)
      && Watchlist.WellFormed(items)
      && (forall i :: 0 <= i < |items| ==> 1 <= items[i].userId <= |users|)
      && (session.Some? ==>
            1 <= session.value.userId <= |users| && users[session.value.userId - 1].username == session.value.username)
    }

    /** A fresh database, no one logged in, and empty genre maps (their values before
        `fetch_genres` runs). */
    constructor (hasher: Hasher)
      ensures Valid() && this.hasher == hasher
      ensures users == [] && items == [] && session == None
      ensures movieGenres == map[] && tvGenres == map[] && animeGenres == map[]
    {
      this.hasher := hasher;
      users, items, session := [], [], None;
      movieGenres, tvGenres, animeGenres := map[], map[], map[];
    }

    /** `register` on a POST. `salt` is the random salt the hash draws. */
    method Register(username: string, email: string, password: string, salt: string)
      returns (outcome: RegisterOutcome)
      requires Valid()
      modifies this
      ensures Valid()
      ensures (users, outcome) == Accounts.Register(old(users), username, email, password, salt, hasher)
      ensures items == old(items) && session == old(session)
      ensures movieGenres == old(movieGenres) && tvGenres == old(tvGenres) && animeGenres == old(animeGenres)
    {
      RegisterPreservesWellFormed(users, username, email, password, salt, hasher);
      var existing := FindConflict(users, username, email);
      if existing.Some? {
        return UsernameOrEmailInUse;
      }
      var user := User(|users| + 1, username, email, hasher.hash(password, salt));
      users := users + [user];
      outcome := Registered;
    }

    /** `login` on a POST: on success the session holds the user's id and username;
        on failure the session is left as it was. */
    method Login(email: string, password: string) returns (outcome: LoginOutcome)
      requires Valid()
      modifies this
      ensures Valid()
      ensures (session, outcome) == Accounts.Login(users, old(session), email, password, hasher)
      ensures users == old(users) && items == old(items)
      ensures movieGenres == old(movieGenres) && tvGenres == old(tvGenres) && animeGenres == old(animeGenres)
    {
      var found := FindByEmail(users, email);
      if found.Some? && hasher.check(users[found.value].passwordHash, password) {
        var user := users[found.value];
        session := Some(SessionUser(user.id, user.username));
        outcome := LoggedIn;
      } else {
        outcome := InvalidCredentials;
      }
    }

    /** `logout`: removes `user_id` and `username` from the session, whether or not they
        were there, and nothing else. */
    method Logout()
      requires Valid()
      modifies this
      ensures Valid()
      ensures session == None
      ensures users == old(users) && items == old(items)
      ensures movieGenres == old(movieGenres) && tvGenres == old(tvGenres) && animeGenres == old(animeGenres)
    {
      session := None;
    }

    /** `add_to_watchlist`: for the session's user only, and only when the entry is
        not already in the table. */
    method AddToWatchlist(mediaType: string, itemId: int, title: string, posterUrl: string)
      returns (outcome: AddOutcome)
      requires Valid()
      modifies this
      ensures Valid()
      ensures (items, outcome) == Watchlist.Add(old(items), session, mediaType, itemId, title, posterUrl)
      ensures users == old(users) && session == old(session)
      ensures movieGenres == old(movieGenres) && tvGenres == old(tvGenres) && animeGenres == old(animeGenres)
    {
      AddPreservesWellFormed(items, session, mediaType, itemId, title, posterUrl);
      if session.None? {
        return NotLoggedIn;
      }
      var userId := session.value.userId;
      var existing := FindEntry(items, userId, mediaType, itemId);
      if existing.Some? {
        return AlreadyInWatchlist;
      }
      items := items + [Item(|items| + 1, userId, mediaType, itemId, title, posterUrl)];
      outcome := Added;
    }

    /** `fetch_genres`. Each argument is the parsed body of one of the three genre-list
        responses, or None where the request or its JSON decoding raises; the exception
        leaves the function, so the later maps are not fetched. A map is replaced by the
        one built from its list only when the body holds the expected key. */
    method FetchGenres(movieBody: Option<GenreBody>, tvBody: Option<GenreBody>, animeBody: Option<GenreBody>)
      returns (completed: bool)
      requires Valid()
      modifies this
      ensures Valid()
      ensures completed <==> movieBody.Some? && tvBody.Some? && animeBody.Some?
      ensures movieGenres ==
        if movieBody.Some? && TmdbGenresKey in movieBody.value
        then BuildGenreMap(movieBody.value[TmdbGenresKey]) else old(movieGenres)
      ensures tvGenres ==
        if movieBody.Some? && tvBody.Some? && TmdbGenresKey in tvBody.value
        then BuildGenreMap(tvBody.value[TmdbGenresKey]) else old(tvGenres)
      ensures animeGenres ==
        if movieBody.Some? && tvBody.Some? && animeBody.Some? && JikanGenresKey in animeBody.value
        then BuildGenreMap(animeBody.value[JikanGenresKey]) else old(animeGenres)
      ensures users == old(users) && items == old(items) && session == old(session)
    {
      var movie, tv, anime := movieGenres, tvGenres, animeGenres;
      completed := false;
      if movieBody.Some? {
        if TmdbGenresKey in movieBody.value {
          movie := BuildGenreMap(movieBody.value[TmdbGenresKey]);
        }
        if tvBody.Some? {
          if TmdbGenresKey in tvBody.value {
            tv := BuildGenreMap(tvBody.value[TmdbGenresKey]);
          }
          if animeBody.Some? {
            if JikanGenresKey in animeBody.value {
              anime := BuildGenreMap(animeBody.value[JikanGenresKey]);
            }
            completed := true;
          }
        }
      }
      movieGenres, tvGenres, animeGenres := movie, tv, anime;
    }
  }

  /** A session of use, from a fresh start: register alice, log in, add "Fight Club"
      (TMDb movie 550) twice, then list the watchlist. The second add is refused and
      the listing holds the one row. */
  method AliceScenario(hasher: Hasher) returns (registered: RegisterOutcome, loggedIn: LoginOutcome,
                                                first: AddOutcome, second: AddOutcome, listing: Listing)
    requires hasher.check(hasher.hash("pw123", "salt"), "pw123")
    ensures registered == Registered && loggedIn == LoggedIn
    ensures first == Added && second == AlreadyInWatchlist
    ensures listing == Listed([Item(1, 1, "movie", 550, "Fight Club", "")])
  {
    var app := new App(hasher);
    registered := app.Register("alice", "alice@x.com", "pw123", "salt");
    loggedIn := app.Login("alice@x.com", "pw123");
    first := app.AddToWatchlist("movie", 550, "Fight Club", "");
    second := app.AddToWatchlist("movie", 550, "Fight Club", "");
    listing := MyWatchlist(app.items, app.session);
  }

  /** Genre refresh where the movie list arrives with genre 28 "Action" and the tv
      request fails: the movie map is replaced, the exception stops the refresh, and
      the tv map keeps its old (empty) value, so 28 resolves to "Action" in the movie
      map and to "" in the tv map. At start-up the process stops at this point. */
  method GenreRefreshScenario(hasher: Hasher) returns (completed: bool, movieName: Option<string>,
                                                       tvName: Option<string>)
    ensures !completed
    ensures movieName == Some("Action") && tvName == Some("")
  {
    var app := new App(hasher);
    var movieBody: GenreBody := map[TmdbGenresKey := [GenreEntry(28, "Action")]];
    completed := app.FetchGenres(Some(movieBody), None, Some(map[JikanGenresKey := []]));
    assert 28 in app.movieGenres && app.movieGenres[28] == "Action" && app.tvGenres == map[];
    var link := Text.ShowInt(28);
    CachedGenreResolves(28, app.movieGenres, app.tvGenres, app.animeGenres);
    movieName := MovieTvGenreLabel("movie", link, app.movieGenres, app.tvGenres);
    tvName := MovieTvGenreLabel("tv", link, app.movieGenres, app.tvGenres);
  }
}

# Media-discovery web application: accounts, watchlist and genre cache

This project models the state-and-rules core of a Flask application, `app.py`. The
application lets users register, log in, and keep a watchlist of movies, TV shows and
anime. It also lets them search and browse two upstream catalogues: TMDb for movies
and TV, and Jikan for anime. The model covers the following parts of `app.py`:

- **Accounts and session** (`accounts.dfy`). The `users` table is a sequence of
  `User` rows. Each row stores a password only as its hash. `register` refuses a
  username or an email that is already stored, and otherwise appends one row.
  `login` writes `(user_id, username)` into the session when the email is known and
  the password checks. `logout` removes both keys from the session.
- **Watchlist** (`watchlist.dfy`). The `watchlist_items` table is a sequence of
  `Item` rows. The schema has no unique constraint on `(user_id, media_type,
  item_id)`. Uniqueness rests on the check that `add_to_watchlist` makes before it
  inserts, and `AddPreservesWellFormed` proves that this check keeps the entries
  unique. `my_watchlist` lists the session user's rows in table order.
- **Genre cache** (`genres.dfy`). `fetch_genres` turns each genre list into an
  id→name map. This file also models the genre name that the browse routes show.
  That name is resolved through Python's `int(genre_id)`, which `text.dfy` models
  together with `str.strip()`.
- **Query routes** (`catalog.dfy`). `search`, `search_anime`, `browse_by_genre` and
  `browse_anime_by_genre` are functions. Each returns the upstream requests it
  issued and its answer. This is how "no upstream call" is stated: the list of
  calls is empty.
- **Application state** (`app.dfy`). Class `App` holds the two tables, the session
  and the three global genre maps. Its methods `Register`, `Login`, `Logout`,
  `AddToWatchlist` and `FetchGenres` change that state. Each method is proved
  against the pure functions above, and each one preserves the invariant `Valid()`.
  `Valid()` says:
  - both tables are well formed;
  - every watchlist row belongs to a stored user;
  - a logged-in session names a stored user.

The following are parameters of the model:
- **Password hashing** is a `Hasher` value. Its `hash(password, salt)` stands for
  werkzeug's salted `generate_password_hash`. The random salt is an argument of
  `Register`.
- **Upstream catalogues** are a function from `Request` to the parsed response body.
  It returns `None` where `requests.get` or `.json()` raises.
- **Genre-list responses** are arguments of `FetchGenres`. Each is either a parsed
  body or `None`.

The model keeps these behaviours of the code as written:
- **`fetch_genres` failures.** The three genre requests run one after another, with
  no exception handling. An exception from `requests.get`/`.json()` leaves
  `fetch_genres`, so the maps after it are not fetched. The maps replaced before it
  keep their new values, and at start-up the exception stops the process.
  `FetchGenres` returns `completed = false` in that case, and `GenreRefreshScenario`
  shows it.
- **Malformed `genre_id`.** Genre-name lookup can fail. A non-empty `genre_id` that
  `int()` rejects raises `ValueError`, and this happens after the upstream request.
  A whitespace-only `genre_id` passes the emptiness guard and fails the same way.
  For `browse_by_genre`, this only happens when `media_type` is `movie` or `tv`,
  because of short-circuit evaluation. The model answers `ServerError` in these
  cases.
- **Duplicate watchlist add.** A duplicate add answers with the message "Item
  already in watchlist!" (`AlreadyInWatchlist`), not a structured error.

## Model

| member | source | states |
|---|---|---|
| `Text.Strip` | app.py:214-219 | The result is empty exactly when the query is all whitespace; otherwise it neither starts nor ends with whitespace |
| `Text.StripSlice` | app.py:214-216 | The stripped query is a slice of the input with only whitespace cut away on either side |
| `Text.StripIdempotent` | app.py:320-323 | Stripping an already stripped query changes nothing |
| `Text.ParseInt` | app.py:299-302 | `int(genre_id)` fails on empty or all-whitespace text, and on text holding one of the information separators U+001C..U+001F, which `str.isspace()` counts as whitespace but `int()` does not skip |
| `Text.ParseShowInt` | app.py:377 | `int(str(n)) == n` for every int: the decimal form of a genre id parses back to it |
| `Accounts.Register` | app.py:112-122 | Conflict exactly when a stored user has the username or the email, and then the table is unchanged; otherwise exactly one row (next id, username, email, hash of the password) is appended |
| `Accounts.RegisterPreservesWellFormed` | app.py:112-122 | Registration keeps ids sequential and usernames and emails unique |
| `Accounts.RegisterTwiceConflicts` | app.py:112-116 | After a registration, another one with the same username or the same email is refused and changes nothing |
| `Accounts.Authenticate` | app.py:134-135 | A login result names a row with that email whose hash checks against the password; an unknown email never logs in |
| `Accounts.Login` | app.py:134-140 | The session becomes the user's (id, username) exactly when authentication succeeds; otherwise it is left as it was, with one failure answer |
| `Accounts.AuthenticateIff` | app.py:134-137 | With unique emails: login succeeds if and only if some row has the email and its hash checks, and the session then holds that row's id and username |
| `Accounts.RegisterThenLogin` | app.py:119-137 | Registering and then logging in with the same email and password succeeds, with the new row's id and username, given that the hash checks against its password |
| `Watchlist.Add` | app.py:155-184 | No session: nothing changes; an existing (user, media type, item id) entry: nothing changes; otherwise exactly one row owned by the session user is appended |
| `Watchlist.AddPreservesWellFormed` | app.py:167-183 | Adding keeps ids sequential and no (user, media type, item id) entry twice in the table |
| `Watchlist.AddTwiceIsRefused` | app.py:167-173 | The same add repeated right after a successful one is refused and leaves the table as it is |
| `Watchlist.AddedOnceInListing` | app.py:175-193 | After a successful add the user's listing is the old listing plus the new row, and no earlier row of it records that entry |
| `Watchlist.AddLeavesOthersAlone` | app.py:175-183 | Adding for one user leaves every other user's listing unchanged |
| `Watchlist.ItemsOf` | app.py:193 | The listing holds exactly the stored rows owned by the user, never another user's |
| `Watchlist.ItemsOfConcat` | app.py:193 | The listing of a table made of two parts is the listing of the first part followed by the listing of the second |
| `Watchlist.ItemsOfInTableOrder` | app.py:193 | In a table with sequential ids, the user's listing is in increasing id order, that is table order |
| `Watchlist.MyWatchlist` | app.py:187-194 | No session: redirect to login; otherwise exactly the session user's rows |
| `Genres.BuildGenreMap` | app.py:82 | The map's keys are exactly the ids in the list, and each id maps to the name of the last entry with that id |
| `Genres.BuildGenreMapFindsEveryEntry` | app.py:97-99 | With distinct ids, every entry of the list is found under its id with its name |
| `Genres.MovieTvGenreLabel` | app.py:298-302 | Fails only when the media type is movie or tv and `int()` rejects the id. For any other media type the name is "". When `int()` accepts the id, the name is the cached movie or tv name of the parsed id, or "" when that id is not cached |
| `Genres.AnimeGenreLabel` | app.py:377 | Fails only when `int()` rejects the id. Otherwise the name is the cached anime name of the parsed id, or "" when that id is not cached |
| `Genres.CachedGenreResolves` | app.py:298-302 | A genre id written in decimal resolves to its cached name, and to "" when it is not cached |
| `Catalog.ResultsOf` | app.py:231 | A response without the results key yields an empty result list |
| `Catalog.TextSearch` | app.py:213-231 | A blank query yields an empty page and no upstream call. Otherwise the stripped query, non-empty, is sent once. The answer is a server error when the request raises, and otherwise exactly the page of its results under the query |
| `Catalog.Search` | app.py:208-238 | TMDb search: no call for a blank query. Otherwise one multi-search request with the stripped query, and the answer is a server error when it raises, else exactly the page of the results read under "results" |
| `Catalog.SearchAnime` | app.py:315-343 | Jikan search: no call for a blank query. Otherwise one anime search with the stripped query, and the answer is a server error when it raises, else exactly the page of the results read under "data" |
| `Catalog.BrowseByGenre` | app.py:275-309 | An empty or missing genre id is refused with no upstream call. Otherwise one discover request is sent. The answer is a server error when the request or `int()` raises, and otherwise exactly the page of the results under the resolved genre name |
| `Catalog.BrowseAnimeByGenre` | app.py:357-383 | The same for Jikan's genre browse and the anime map: refused with no call for an empty id, otherwise one request and exactly a server error or the page under the resolved name |
| `Catalog.BrowseCachedMovieGenre` | app.py:294-302 | Browsing a movie genre by its decimal id shows the upstream results under its cached name, or "" when it is not cached |
| `Catalog.BrowseCachedAnimeGenre` | app.py:373-377 | Browsing an anime genre by its decimal id shows the results under its cached name, or "" |
| `Catalog.InfoSeparatorGenreIdFails` | app.py:294-302 | A movie genre id starting with U+001C is sent upstream, and then the route fails with a server error because `int()` rejects it |
| `WebApp.App.constructor` | app.py:33-35 | The application starts with empty tables, no session and empty genre maps, and satisfies the invariant |
| `WebApp.App.Register` | app.py:104-125 | Changes the user table as `Accounts.Register` says, keeps the invariant, and changes neither the watchlist, the session nor the genre maps |
| `WebApp.App.Login` | app.py:128-142 | Changes the session as `Accounts.Login` says and touches no table or genre map |
| `WebApp.App.Logout` | app.py:145-149 | Clears the session whatever it held, so a second logout changes nothing, and touches no table |
| `WebApp.App.AddToWatchlist` | app.py:155-184 | Changes the watchlist as `Watchlist.Add` says with the current session, keeps the uniqueness invariant, and changes nothing else |
| `WebApp.App.FetchGenres` | app.py:69-99 | Each map is replaced by the map built from its list only when its response arrived and holds the `genres`/`data` key. Otherwise it keeps its value, and a failed request stops the later fetches |
| `WebApp.AliceScenario` | app.py:104-194 | From a fresh start: register alice, log in, add movie 550 "Fight Club", and add it again. The second add is refused and the listing is that one row |
| `WebApp.GenreRefreshScenario` | app.py:79-90 | A movie list with 28 "Action" followed by a failed TV request: the movie map then resolves 28 to "Action", the tv map keeps its empty value so 28 resolves to "" there, and the refresh does not complete (at start-up the process stops at this point) |

## Left out

- HTTP routing, `render_template`, `redirect`/`url_for` and the literal response texts. These are presentation only; the answers are the outcome datatypes.
- Non-POST requests to `register`/`login` and the pages that only render templates (`home`, `genres_page`, `anime_genres_page`). They involve no rule.
- `recommendations` and `anime_recommendations` (app.py:241-260, 386-400). They pass an upstream list through with no guard; `Catalog.ResultsOf` states their one rule, that a missing list reads as empty.
- URL and fixed-parameter construction for TMDb and Jikan (API key, language, page, `include_adult`, sort order, limit). `Request` keeps only the arguments taken from the query.
- The "Browsing … Genre:" prefix and the upper-casing of `media_type` in the browse headings. The model shows only the genre name.
- werkzeug's hashing algorithm. `Hasher` is a parameter, and the random salt is an argument.
- SQLAlchemy sessions, commits, table creation and the SQLite file. The tables are sequences, and a new row's id is its position plus one, since no row is ever deleted. Column length limits are not enforced by SQLite and are not modelled.
- Form fields missing from a POST to `register`, `login` or `add_to_watchlist`. Flask passes `None` on. The database then matches nothing or raises an integrity error. For a missing password, werkzeug's hashing raises instead, in `set_password` on register and in `check_password` on a login with a known email. The model takes each field as a string.
- `item_id` arrives as form text and is stored through SQLite's integer column affinity. The model takes it as an int.
- The race between the duplicate check and the insert in `add_to_watchlist`. The model is sequential.
- Sessions of several clients and the signing of the session cookie. The model has one client's session.
- Response bodies of other shapes than lists of entries, such as a genre entry without `id`, where Python would raise `KeyError`.
- Configuration, environment variables, `app.run`, and the start-up call order in `__main__`.
- Text.ParseInt: its contract states only that blank text fails and that text holding an information separator fails. Its grammar is stated in its body: surrounding whitespace, an optional sign, and ASCII digits with single underscores between them. `Text.ParseShowInt` is its round trip. Non-ASCII Unicode digits, which Python's `int()` also accepts, and `int()`'s limit of 4300 digits are not modelled.

# Cache-aside services of a films catalogue

This project models the three read services of a small film-catalogue API:
`FilmService`, `PersonService` and `GenreService`. Each one fronts a search engine
index of film documents (`movies`) with a key-value cache.

Every service method but one follows the same cache-aside pattern:

- a cache key is built from the request;
- a hit (the key is present) is parsed back into models;
- a miss asks the engine, builds the models, stores them under the key with the
  service's TTL (300 seconds by default) and returns them.

The exception is `get_genre_by_id`. It reads only the fixed `genres_cache` key, a name-map
dump that no service here writes, falls back to the engine, and never writes the cache.
`Genres.GetGenreById` therefore takes no TTL and returns the genre directly, as an
`Option`, rather than a `Reply`.

In the model each of the other methods is a pure function. It takes:

- the cache state, a `map` from key to `Entry(payload, ttl)`;
- the TTL;
- the request parameters;
- the engine's answers, passed in as parameters (the hits of a search, the batches a
  scroll returns, the document a `get` finds, or a function from a query to its hits:
  the film-list query, or the films query for one person).

It returns a `Reply` holding the result and the new cache state. A hit whose payload
has the shape the method stores is read back. An empty JSON collection, `[]` or `{}`,
reads as an empty list in the readers that only iterate over the payload (film lists
and searches, person and genre searches). The readers that call `.items()` (person and
genre lists) accept only a name map, and `{}` is one. Any other payload is an
`UnreadablePayload` error, where the service would raise. A missing `title` on a hit that becomes a short film is a
`MissingField` error.

Python `dict` behaviour matters for the person and genre lists and for the genre
search. A key keeps the position of its first write and the value of its last one.
`OrderedMaps.Collect` models this over a sequence of writes, and
`OrderedMaps.CollectCharacterised` ties it to an independent description.

Python slicing, including out-of-range and negative bounds, is modelled by `Paging.PySlice`.
The cache keys are the services' f-strings, with `str(int)` written out in `Strings`.
Keys of different requests are proved never to coincide, both across key families and
within each family.

Modules:

- `Common`: `Option`, `Result`, errors.
- `Strings`: decimal rendering of integers, `lstrip("-")`, ASCII lower-casing, substring
  test.
- `OrderedMaps`: insertion-ordered dictionaries.
- `Paging`: slices and pages.
- `Documents`: the engine's documents and the models (`FilmShort`, `Film`, `Person`,
  `Genre`).
- `Cache`: payloads, entries, key constructors, key families, the well-shaped invariant.
- `Films`, `Persons`, `Genres`: the service methods.

## Model

| member | source | states |
|---|---|---|
| Cache.FamiliesOfKeys | fastapi_practice/src/services/persons.py:62 | each key constructor (`PersonsPageKey`, `PersonKey`, `PersonSearchKey`, `FilmsPageKey`, `FilmSearchKey`, `FilmKey`, `GenresPageKey`, `GenreSearchKey`, and the fixed `GenresDumpKey`) lands in its own key family by prefix, so keys of different methods never coincide (also persons.py:107,185, films.py:61,112,151, genres.py:54,103,164) |
| Cache.PersonsPageKeyInjective | fastapi_practice/src/services/persons.py:62 | two (page, size) requests share a person-list key only when they are the same request |
| Cache.GenresPageKeyInjective | fastapi_practice/src/services/genres.py:54 | two (page, size) requests share a genre-list key only when they are the same request |
| Cache.FilmsPageKeyInjective | fastapi_practice/src/services/films.py:61 | two (page, size, sort) requests share a film-list key only when they are the same request |
| Cache.FilmSearchKeyInjective | fastapi_practice/src/services/films.py:112 | two (query, size) searches share a key only when they are the same search |
| Cache.FilmKeyInjective | fastapi_practice/src/services/films.py:151 | two film lookups share a key only when they ask for the same id |
| Cache.PersonKeyInjective | fastapi_practice/src/services/persons.py:107 | two person lookups share a key only when they ask for the same id |
| Cache.PersonSearchKeyInjective | fastapi_practice/src/services/persons.py:185 | two person searches share a key only when they search for the same query |
| Cache.GenreSearchKeyInjective | fastapi_practice/src/services/genres.py:103 | two genre searches share a key only when they search for the same query |
| Cache.WriteKeepsShape | fastapi_practice/src/services/films.py:87-93 | storing a payload of the shape its key's family expects keeps every entry readable by its reader |
| Strings.ParseIntRoundTrip | fastapi_practice/src/services/persons.py:62 | the decimal rendering of an integer inside a key reads back as that integer |
| Strings.IntToStringInjective | fastapi_practice/src/services/persons.py:62 | different integers render to different strings in keys |
| Strings.LStripDashes | fastapi_practice/src/services/films.py:67 | the stripped field is a suffix of the sort string, only dashes were removed, and it does not start with a dash |
| Strings.Contains | fastapi_practice/src/services/genres.py:139 | the substring test holds exactly when the needle occurs at some position of the haystack |
| OrderedMaps.Collect | fastapi_practice/src/services/persons.py:85 | a dict built by successive writes has distinct keys, exactly the keys written |
| OrderedMaps.CollectCharacterised | fastapi_practice/src/services/persons.py:85 | each key of the dict holds the value written last for it, and keys are ordered by their first write |
| OrderedMaps.CollectDistinct | fastapi_practice/src/services/persons.py:94 | rebuilding a dict from its own items gives back the same items in the same order |
| OrderedMaps.PutKeys | fastapi_practice/src/services/genres.py:74 | a write to a present key keeps the key order, and a write to a new key appends it |
| OrderedMaps.FirstIndexDistinct | fastapi_practice/src/services/genres.py:142 | in a dict's items, the item at position `i` is the first, and only, one with its key |
| OrderedMaps.FindAfterPut | fastapi_practice/src/services/genres.py:74 | a write to one key does not change what another key holds |
| Paging.PageBound | fastapi_practice/src/services/persons.py:92-94 | a page of a list holds at most `size` items |
| Paging.PageContents | fastapi_practice/src/services/persons.py:92-94 | for page >= 1 and size >= 0 a page is the run of items starting at `(page - 1) * size`, cut at the end of the list |
| Paging.PagesTile | fastapi_practice/src/services/genres.py:81-84 | page `p` followed by page `p + 1` is the slice covering both |
| Paging.PagedDictIsPage | fastapi_practice/src/services/persons.py:94 | rebuilding a dict from a slice of its items gives exactly that slice |
| Documents.Scrolled | fastapi_practice/src/services/persons.py:81-89 | every document the scroll loop visits belongs to one of the engine's batches |
| Documents.ScrolledStops | fastapi_practice/src/services/genres.py:71-79 | the scroll loop stops at the first empty batch: it visits exactly the batches before it |
| Documents.ToFilmShorts | fastapi_practice/src/services/films.py:79-85 | the short films are built exactly when every hit has a title, one per hit in order, with the hit's uuid, title and rating |
| Films.ParseSort | fastapi_practice/src/services/films.py:67-68 | the sort field has no leading dash, and the order is descending exactly when the parameter starts with a dash |
| Films.ParseSortRoundTrip | fastapi_practice/src/services/films.py:67-68 | parsing a rendered (field, order) parameter gives back the field and the order |
| Films.ListFilmsQueryPages | fastapi_practice/src/services/films.py:69-76 | the list query asks for `size` films from `(page - 1) * size`, page 1 starts at 0, and each page starts where the previous one ended |
| Films.CachedFilmShorts | fastapi_practice/src/services/films.py:61-136 | a hit leaves the cache as it was, reads an empty `[]`/`{}` as no films and fails exactly when the payload is neither a short-film list nor empty; a miss succeeds exactly when every hit has a title, then returns one short film per hit and adds only its own key, with the TTL |
| Films.ListFilms | fastapi_practice/src/services/films.py:43-94 | a hit leaves the cache as it was; a miss asks the engine the list query for (page, size, sort), succeeds exactly when every hit of it has a title, returns one film per hit with the hit's uuid, and writes only its own key with the TTL; a failure writes nothing |
| Films.SearchFilms | fastapi_practice/src/services/films.py:96-137 | a hit leaves the cache as it was; a miss succeeds exactly when every hit has a title, returns one film per hit with the hit's uuid, and writes only its own (query, size) key with the TTL; a failure writes nothing |
| Films.ListFilmsRoundTrip | fastapi_practice/src/services/films.py:61-65 | after a successful miss, the same list request is a hit returning the same films, whatever the engine would answer now |
| Films.ListFilmsLeavesOtherRequests | fastapi_practice/src/services/films.py:61 | a list miss leaves every other (page, size, sort) request's entry as it was |
| Films.SearchFilmsRoundTrip | fastapi_practice/src/services/films.py:112-136 | after a successful miss, the same search is a hit returning the same films |
| Films.SearchFilmsLeavesOtherRequests | fastapi_practice/src/services/films.py:112 | a search miss leaves every other (query, size) search's entry as it was |
| Films.BuildFilm | fastapi_practice/src/services/films.py:161-179 | the film keeps the document's uuid, title, description and rating, one genre per genre record, and every person gets the role of its list with no films |
| Films.BuildFilmKeepsPeople | fastapi_practice/src/services/films.py:169-178 | each role list of the film holds exactly the document's records for that role, in order, and is empty when the document lacks it |
| Films.GetFilmById | fastapi_practice/src/services/films.py:151-182 | a hit leaves the cache as it was and fails exactly when the payload is not a film; not found returns nothing and writes nothing; found returns the built film and stores only its own key, with the TTL |
| Films.GetFilmByIdRoundTrip | fastapi_practice/src/services/films.py:151-159 | after a found lookup the next lookup is a hit returning the same film, and a not-found leaves the cache as it was |
| Films.ListFilmsKeepsShape | fastapi_practice/src/services/films.py:63-65 | a list call keeps a well-shaped cache well shaped, and there a hit always parses |
| Films.SearchFilmsKeepsShape | fastapi_practice/src/services/films.py:114-116 | a search call keeps a well-shaped cache well shaped, and there a hit always parses |
| Films.GetFilmByIdKeepsShape | fastapi_practice/src/services/films.py:153-154 | a lookup keeps a well-shaped cache well shaped, and there a hit always parses |
| Persons.RoleWritesFrom | fastapi_practice/src/services/persons.py:83-85 | a (uuid, name) pair is written for a document exactly when one of the given role lists holds that record |
| Persons.PersonWritesFrom | fastapi_practice/src/services/persons.py:81-85 | the scroll loop writes a (uuid, name) pair exactly when some document names that person in actors, directors or writers |
| Persons.ListPersons | fastapi_practice/src/services/persons.py:62-100 | a hit leaves the cache as it was and fails exactly when the payload is not a name map; a miss always succeeds, adds only its own key with the TTL and returns at most `size` persons; the uuids returned are distinct |
| Persons.ListPersonsAggregation | fastapi_practice/src/services/persons.py:81-85 | every person the documents name appears once, with the name written last for it, in the order of first appearance, and nothing else appears |
| Persons.ListPersonsPage | fastapi_practice/src/services/persons.py:92-100 | a miss returns the run of aggregated persons starting at `(page - 1) * size`, at most `size` of them, with no role and no films |
| Persons.ListPersonsRoundTrip | fastapi_practice/src/services/persons.py:64-68 | after a miss the same request is a hit returning the same persons in the same order |
| Persons.ListPersonsLeavesOtherRequests | fastapi_practice/src/services/persons.py:96-98 | a list miss leaves every other (page, size) request's entry as it was |
| Persons.FirstListing | fastapi_practice/src/services/persons.py:132-138 | the role chosen is the first of actors, directors, writers whose list holds the id |
| Persons.FindInRoles | fastapi_practice/src/services/persons.py:131-141 | no person is found exactly when no role list holds the id; otherwise the first matching record of the first such list, with the list's name minus its `s` as the role |
| Persons.GetPersonById | fastapi_practice/src/services/persons.py:107-167 | a hit leaves the cache as it was and fails exactly when the payload is not a person; no hit or no listing returns nothing and writes nothing; once the person is listed, the lookup fails exactly when some film hit has no title; a found person is stored under its own key only, with the TTL; a failure writes nothing |
| Persons.GetPersonByIdFound | fastapi_practice/src/services/persons.py:132-163 | a found person is the first record with the uuid asked for in the first list naming it, with that record's full name and that list's role, and one short film per film hit, in order, with the hit's uuid, title and rating |
| Persons.GetPersonByIdRoundTrip | fastapi_practice/src/services/persons.py:108-110 | after a found lookup the next lookup is a hit returning the same person, films included |
| Persons.TakenShift | fastapi_practice/src/services/persons.py:211-218 | whether a later candidate is taken depends on the first candidate only through the seen set it leaves |
| Persons.SelectIndicesTaken | fastapi_practice/src/services/persons.py:211-218 | the selection loop takes only candidate positions where the name equals the query, the uuid was not seen before, and no earlier candidate with that uuid had that name |
| Persons.SelectIndicesIncreasing | fastapi_practice/src/services/persons.py:211-218 | the positions taken strictly increase, so the selection keeps candidate order |
| Persons.SelectIndicesComplete | fastapi_practice/src/services/persons.py:211-218 | every position meeting that condition is taken |
| Persons.Select | fastapi_practice/src/services/persons.py:211-218 | the selection is the candidates at the taken positions, in order; it has distinct uuids, takes only candidates named exactly as the query, and takes every such candidate whose uuid was not already seen |
| Persons.WithFilms | fastapi_practice/src/services/persons.py:219-247 | a selected candidate becomes a person with its uuid, full name, singular role and exactly the short films of its films hits; it fails exactly when one of those hits has no title |
| Persons.AllWithFilms | fastapi_practice/src/services/persons.py:213-248 | the persons come one per selected candidate, in order, keeping uuid, name and role, each with the short films of its own films query; it fails exactly when one of those queries has a hit without a title |
| Persons.SearchPersons | fastapi_practice/src/services/persons.py:185-259 | a hit leaves the cache as it was, reads an empty `[]`/`{}` as no persons and fails exactly when the payload is neither a person-entry list nor empty; a successful miss returns distinct uuids, all named exactly as the query, and stores uuid, name and role of each under its own key only; a failure writes nothing |
| Persons.SearchPersonsComplete | fastapi_practice/src/services/persons.py:193-218 | on a successful miss, every person named exactly as the query in any role list of the three searches' hits is returned |
| Persons.SearchPersonsSound | fastapi_practice/src/services/persons.py:193-248 | on a miss the persons are the candidates at the taken positions, in increasing order, each with the uuid and full name of the first candidate named as the query with that uuid, the role of that candidate's list and its own films; the search fails exactly when one of those films queries has a hit without a title |
| Persons.SearchPersonsRoundTrip | fastapi_practice/src/services/persons.py:187-191 | a hit after a miss gives the same persons in order with the same uuid, name and role, but with no films |
| Persons.SearchPersonsHitDropsFilms | fastapi_practice/src/services/persons.py:251-256 | a concrete search whose miss returns a person with one film and whose hit returns the same person with none |
| Persons.ListPersonsKeepsShape | fastapi_practice/src/services/persons.py:64-68 | a list call keeps a well-shaped cache well shaped, and there a hit always parses |
| Persons.GetPersonByIdKeepsShape | fastapi_practice/src/services/persons.py:109-110 | a lookup keeps a well-shaped cache well shaped, and there a hit always parses |
| Persons.SearchPersonsKeepsShape | fastapi_practice/src/services/persons.py:187-191 | a search keeps a well-shaped cache well shaped, and there a hit always parses |
| Genres.GenreWritesFrom | fastapi_practice/src/services/genres.py:71-74 | the scroll loop writes a (uuid, name) pair exactly when some document holds that genre record |
| Genres.ListGenres | fastapi_practice/src/services/genres.py:54-89 | a hit leaves the cache as it was and fails exactly when the payload is not a name map; a miss always succeeds, adds only its own key with the TTL and returns at most `size` genres; the uuids returned are distinct |
| Genres.ListGenresAggregation | fastapi_practice/src/services/genres.py:71-74 | every genre the documents hold appears once, with the name written last for it, in the order of first appearance, and nothing else appears |
| Genres.ListGenresPage | fastapi_practice/src/services/genres.py:81-89 | a miss returns the run of aggregated genres starting at `(page - 1) * size`, at most `size` of them |
| Genres.ListGenresRoundTrip | fastapi_practice/src/services/genres.py:55-58 | after a miss the same request is a hit returning the same genres in the same order |
| Genres.ListGenresLeavesOtherRequests | fastapi_practice/src/services/genres.py:87 | a list miss leaves every other (page, size) request's entry as it was |
| Genres.MatchWritesFrom | fastapi_practice/src/services/genres.py:136-140 | a genre is written for a list of records exactly when a record with its uuid and name is in the list and passes the filter |
| Genres.SearchWritesFrom | fastapi_practice/src/services/genres.py:135-140 | the search loop writes a genre exactly when some hit holds it and it has a non-empty name and uuid whose lower-cased name contains the lower-cased query |
| Genres.SearchGenres | fastapi_practice/src/services/genres.py:103-152 | a hit leaves the cache as it was, reads an empty `[]`/`{}` as no genres and fails exactly when the payload is neither a genre list nor empty; a miss always succeeds, returns distinct uuids and stores exactly those genres under its own key only, with the TTL |
| Genres.UniqueGenreSound | fastapi_practice/src/services/genres.py:134-140 | each deduplicated genre is stored under its own uuid, passes the filter and is a genre record of some hit |
| Genres.UniqueGenresComplete | fastapi_practice/src/services/genres.py:134-140 | every passing genre record of every hit has its uuid among the deduplicated genres |
| Genres.SearchGenresSound | fastapi_practice/src/services/genres.py:134-142 | on a miss each genre returned passes the filter and is a genre record of some hit |
| Genres.SearchGenresComplete | fastapi_practice/src/services/genres.py:134-142 | on a miss the uuid of every passing genre record of every hit is returned |
| Genres.SearchGenresOrder | fastapi_practice/src/services/genres.py:140-142 | every genre returned is, as a whole, the last passing record written for its uuid, and uuids come in the order of their first passing record |
| Genres.SearchGenresRoundTrip | fastapi_practice/src/services/genres.py:106-110 | a hit after a miss returns the miss's genres exactly and changes nothing |
| Genres.DumpedName | fastapi_practice/src/services/genres.py:164-167 | a dumped name is found only when the dump is a name map holding the id |
| Genres.GetGenreById | fastapi_practice/src/services/genres.py:164-178 | a genre found has the id asked for; without a dumped name, nothing is found exactly when there are no hits or the first hit has no genre with that uuid, and a genre found is the first genre record of the first hit with that uuid |
| Genres.GetGenreByIdFromDump | fastapi_practice/src/services/genres.py:164-168 | when the dump maps the id, the genre carries the name written last for it in the dump, whatever the search would answer |
| Genres.ListGenresKeepsShape | fastapi_practice/src/services/genres.py:56-58 | a list call keeps a well-shaped cache well shaped, and there a hit always parses |
| Genres.SearchGenresKeepsShape | fastapi_practice/src/services/genres.py:107-110 | a search keeps a well-shaped cache well shaped, and on a well-shaped cache it always succeeds |

## Left out

- Search-engine semantics are not modelled: relevance order, `match_phrase`, nested `term`
  queries, `multi_match` weights, and the `size` limits on queries (1, 50, `size`). The engine's
  answers are parameters, so every property holds for any answer the engine gives.
- The scroll cursor is not modelled: `_scroll_id`, the `2m` keep-alive and `scroll_size = 100`.
  The scroll is a sequence of batches, and the loop stops at the first empty batch.
- Cache expiry is not modelled. The TTL is recorded in each entry, but no clock removes
  entries; a hit is key presence.
- The `if cached:` test is modelled as key presence, since a stored JSON text is never empty.
- Cache or engine failures are not modelled. The code has no handler around its cache
  calls, so an unavailable cache is not modelled as a soft failure either.
- Asynchronous execution, concurrency between requests, connection set-up and the lifespan
  hooks are left out (`main.py`).
- The FastAPI dependency providers (`get_film_service`, `get_person_service`,
  `get_genre_service`) and the routers are left out; `api/v1/search.py` is not part of this model.
- Pydantic validation is left out, including UUID parsing. Ids are strings, and a malformed
  uuid, which would raise, is not modelled.
- JSON encoding is left out. Payloads are typed values. A payload of the wrong shape
  becomes `UnreadablePayload`, where the service would raise.
- The models' own files (`models/*.py`) are not part of this model. `Film`, `FilmShort`,
  `Person` and `Genre` carry the fields the services set, and `imdb_rating` is opaque.
- A `KeyError` on a genre or person record without `uuid`, `name` or `full_name` is not
  modelled: records always carry both fields.
- A `KeyError` on an engine hit without `uuid` is not modelled: every document carries a
  uuid (films.py:81,163, persons.py:159,243).
- Strings.Lower: ASCII letters only, weaker than Python's `str.lower`, which maps all of Unicode.
- Genres.Matches: a genre record whose `name` or `uuid` is missing is modelled as an empty
  string, and both fail the truthiness test the same way.
- Genres.GetGenreById: a `genres_cache` entry that is not a name map is treated like a missing
  dump. No service here writes that key.
- Persons.SearchPersons: the films query for a person is a function of the person's uuid, so
  two queries for the same uuid get the same answer.

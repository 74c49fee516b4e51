/** `FilmService`: the film list, the film search and the film lookup, each a cache-aside
    read: a key is built, a hit is parsed back, a miss turns the search engine's hits into
    films and stores them under the key. */
module Films {
  import opened Common
  import opened Strings
  import opened Documents
  import opened Paging
  import opened Cache

  datatype SortOrder = Asc | Desc

  /** The sort clause of the list query: the field is `sort` with every leading `-`
      stripped, and the order is descending exactly when `sort` starts with `-`. */
  function ParseSort(sort: string): (r: (string, SortOrder))
    ensures !StartsWith(r.0, "-")
    ensures |r.0| <= |sort| && r.0 == sort[|sort| - |r.0|..]
    ensures forall i :: 0 <= i < |sort| - |r.0| ==> sort[i] == '-'
    ensures r.1 == Desc <==> StartsWith(sort, "-")
  {
    (LStripDashes(sort), if StartsWith(sort, "-") then Desc else Asc)
  }

  /** The sort parameter a client writes for a field and an order. */
  function RenderSort(field: string, order: SortOrder): string {
    if order == Desc then "-" + field else field
  }

  /** Parsing a rendered sort parameter gives back the field and the order. */
  lemma ParseSortRoundTrip(field: string, order: SortOrder)
    requires !StartsWith(field, "-")
    ensures ParseSort(RenderSort(field, order)) == (field, order)
  {
    if order == Desc {
      assert ("-" + field)[1..] == field;
      assert StartsWith("-" + field, "-");
    }
  }

  /** The body of the list query sent to the search engine. */
  datatype FilmsQuery = FilmsQuery(offset: int, size: int, sortField: string, order: SortOrder)

  function ListFilmsQuery(page: int, size: int, sort: string): FilmsQuery {
    var (field, order) := ParseSort(sort);
    FilmsQuery(Offset(page, size), size, field, order)
  }

  /** The list query asks for `size` films starting at `(page - 1) * size`: page 1 starts
      at 0 and each page starts where the previous one ended, with the same sort. */
  lemma ListFilmsQueryPages(page: int, size: int, sort: string)
    ensures ListFilmsQuery(page, size, sort).offset == (page - 1) * size
    ensures ListFilmsQuery(page, size, sort).size == size
    ensures ListFilmsQuery(1, size, sort).offset == 0
    ensures ListFilmsQuery(page + 1, size, sort).offset
         == ListFilmsQuery(page, size, sort).offset + ListFilmsQuery(page, size, sort).size
    ensures (ListFilmsQuery(page, size, sort).sortField, ListFilmsQuery(page, size, sort).order)
         == ParseSort(sort)
  {
    PagesAdjacent(page, size);
  }

  /** The shared shape of `list_films` and `search_films`: a hit parses the stored list,
      a miss builds one short film per engine hit and stores the list under `key`. A stored
      `[]` or `{}` of any shape reads as no films. */
  function CachedFilmShorts(cache: Store, ttl: int, key: string, hits: seq<Doc>): (r: Reply<seq<FilmShort>>)
    ensures key in cache ==> r.cache == cache
    ensures key in cache ==>
      (r.result.Err? <==> !cache[key].payload.FilmShortList? && !EmptyCollection(cache[key].payload))
    ensures key in cache && EmptyCollection(cache[key].payload) ==> r.result == Ok([])
    ensures key !in cache ==> (r.result.Ok? <==> forall i :: 0 <= i < |hits| ==> hits[i].title.Some?)
    ensures key !in cache && r.result.Ok? ==>
      && |r.result.value| == |hits|
      && (forall i :: 0 <= i < |hits| ==>
            r.result.value[i] == FilmShort(hits[i].uuid, hits[i].title.value, hits[i].imdbRating))
      && r.cache.Keys == cache.Keys + {key}
      && (forall k :: k in cache ==> r.cache[k] == cache[k])
      && r.cache[key] == Entry(FilmShortList(r.result.value), ttl)
    ensures key !in cache && r.result.Ok? ==> r.cache == cache[key := Entry(FilmShortList(r.result.value), ttl)]
    ensures r.result.Err? ==> r.cache == cache
  {
    if key in cache then
      match cache[key].payload
      case FilmShortList(films) => Reply(Ok(films), cache)
      case _ =>
        if EmptyCollection(cache[key].payload) then Reply(Ok([]), cache)
        else Reply(Err(UnreadablePayload(key)), cache)
    else
      match ToFilmShorts(hits)
      case Err(e) => Reply(Err(e), cache)
      case Ok(films) => Reply(Ok(films), cache[key := Entry(FilmShortList(films), ttl)])
  }

  /** `FilmService.list_films`; `engine(q)` is the engine's answer to the list query `q`,
      and a miss asks it `ListFilmsQuery(page, size, sort)`. A miss succeeds exactly when
      every hit of that query has a title, and stores only the page's own key. */
  function ListFilms(cache: Store, ttl: int, size: int, page: int, sort: string,
                     engine: FilmsQuery -> seq<Doc>): (r: Reply<seq<FilmShort>>)
    ensures FilmsPageKey(page, size, sort) in cache ==> r.cache == cache
    ensures var hits := engine(ListFilmsQuery(page, size, sort));
      FilmsPageKey(page, size, sort) !in cache ==>
        (r.result.Ok? <==> forall i :: 0 <= i < |hits| ==> hits[i].title.Some?)
    ensures var hits := engine(ListFilmsQuery(page, size, sort));
      FilmsPageKey(page, size, sort) !in cache && r.result.Ok? ==>
        && |r.result.value| == |hits|
        && (forall i :: 0 <= i < |hits| ==> r.result.value[i].uuid == hits[i].uuid)
        && r.cache == cache[FilmsPageKey(page, size, sort) := Entry(FilmShortList(r.result.value), ttl)]
    ensures r.result.Err? ==> r.cache == cache
  {
    var key, hits := FilmsPageKey(page, size, sort), engine(ListFilmsQuery(page, size, sort));
    CachedFilmShorts(cache, ttl, key, hits)
  }

  /** `FilmService.search_films`; `hits` are the engine's answer to the weighted
      title/description match for `query`, at most `size` of them. A miss succeeds exactly
      when every hit has a title, and stores only the search's own key. */
  function SearchFilms(cache: Store, ttl: int, query: string, size: int, hits: seq<Doc>): (r: Reply<seq<FilmShort>>)
    ensures FilmSearchKey(query, size) in cache ==> r.cache == cache
    ensures FilmSearchKey(query, size) !in cache ==>
      (r.result.Ok? <==> forall i :: 0 <= i < |hits| ==> hits[i].title.Some?)
    ensures FilmSearchKey(query, size) !in cache && r.result.Ok? ==>
      && |r.result.value| == |hits|
      && (forall i :: 0 <= i < |hits| ==> r.result.value[i].uuid == hits[i].uuid)
      && r.cache == cache[FilmSearchKey(query, size) := Entry(FilmShortList(r.result.value), ttl)]
    ensures r.result.Err? ==> r.cache == cache
  {
    CachedFilmShorts(cache, ttl, FilmSearchKey(query, size), hits)
  }

  /** A hit on a key a miss filled returns the films the miss returned, in order with
      every field, and changes nothing, whatever the engine would answer now. */
  lemma CachedFilmShortsRoundTrip(cache: Store, ttl: int, ttl2: int, key: string, hits: seq<Doc>, hits2: seq<Doc>)
    requires key !in cache
    requires CachedFilmShorts(cache, ttl, key, hits).result.Ok?
    ensures var miss := CachedFilmShorts(cache, ttl, key, hits);
      CachedFilmShorts(miss.cache, ttl2, key, hits2) == miss
  {
  }

  /** `list_films` keyed on page, size and sort: a hit reproduces the miss's
      (uuid, title, imdb_rating) triples in order. */
  lemma ListFilmsRoundTrip(cache: Store, ttl: int, ttl2: int, size: int, page: int, sort: string,
                           engine: FilmsQuery -> seq<Doc>, engine2: FilmsQuery -> seq<Doc>)
    requires FilmsPageKey(page, size, sort) !in cache
    requires ListFilms(cache, ttl, size, page, sort, engine).result.Ok?
    ensures var miss := ListFilms(cache, ttl, size, page, sort, engine);
      ListFilms(miss.cache, ttl2, size, page, sort, engine2) == miss
  {
    var q := ListFilmsQuery(page, size, sort);
    CachedFilmShortsRoundTrip(cache, ttl, ttl2, FilmsPageKey(page, size, sort), engine(q), engine2(q));
  }

  /** A list miss leaves every other (page, size, sort) request as it was: hit or miss,
      with the same entry. */
  lemma ListFilmsLeavesOtherRequests(cache: Store, ttl: int, size: int, page: int, sort: string,
                                     engine: FilmsQuery -> seq<Doc>, size2: int, page2: int, sort2: string)
    requires (page2, size2, sort2) != (page, size, sort)
    ensures var after := ListFilms(cache, ttl, size, page, sort, engine).cache;
      var key2 := FilmsPageKey(page2, size2, sort2);
      (key2 in after <==> key2 in cache) && (key2 in cache ==> after[key2] == cache[key2])
  {
    if FilmsPageKey(page2, size2, sort2) == FilmsPageKey(page, size, sort) {
      FilmsPageKeyInjective(page2, size2, sort2, page, size, sort);
    }
  }

  /** `search_films` keyed on both query and size: a hit reproduces every field of the
      miss's films, in order. */
  lemma SearchFilmsRoundTrip(cache: Store, ttl: int, ttl2: int, query: string, size: int, hits: seq<Doc>, hits2: seq<Doc>)
    requires FilmSearchKey(query, size) !in cache
    requires SearchFilms(cache, ttl, query, size, hits).result.Ok?
    ensures var miss := SearchFilms(cache, ttl, query, size, hits);
      SearchFilms(miss.cache, ttl2, query, size, hits2) == miss
  {
    CachedFilmShortsRoundTrip(cache, ttl, ttl2, FilmSearchKey(query, size), hits, hits2);
  }

  /** A search miss leaves every other (query, size) request as it was. */
  lemma SearchFilmsLeavesOtherRequests(cache: Store, ttl: int, query: string, size: int, hits: seq<Doc>,
                                       query2: string, size2: int)
    requires (query2, size2) != (query, size)
    ensures var after := SearchFilms(cache, ttl, query, size, hits).cache;
      var key2 := FilmSearchKey(query2, size2);
      (key2 in after <==> key2 in cache) && (key2 in cache ==> after[key2] == cache[key2])
  {
    if FilmSearchKey(query2, size2) == FilmSearchKey(query, size) {
      FilmSearchKeyInjective(query2, size2, query, size);
    }
  }

  /** The people of one role list, each tagged with `role` and with no films. */
  function Tagged(recs: seq<Record>, role: string): (ps: seq<Person>)
    ensures |ps| == |recs|
    ensures forall i :: 0 <= i < |recs| ==> ps[i].role == Some(role) && ps[i].films == []
  {
    seq(|recs|, i requires 0 <= i < |recs| => Person(recs[i].uuid, recs[i].name, Some(role), []))
  }

  /** The records a list of people was tagged from. */
  function Untagged(ps: seq<Person>): seq<Record> {
    seq(|ps|, i requires 0 <= i < |ps| => Record(ps[i].uuid, ps[i].fullName))
  }

  /** The full film built from one document. */
  function BuildFilm(d: Doc): (f: Film)
    ensures f.uuid == d.uuid && f.title == d.title && f.description == d.description
    ensures f.imdbRating == d.imdbRating
    ensures |f.genres| == |Field(d, "genres")|
    ensures forall i :: 0 <= i < |f.genres| ==>
      f.genres[i] == Genre(Field(d, "genres")[i].uuid, Field(d, "genres")[i].name)
    ensures forall p :: p in f.actors ==> p.role == Some(Singular("actors")) && p.films == []
    ensures forall p :: p in f.writers ==> p.role == Some(Singular("writers")) && p.films == []
    ensures forall p :: p in f.directors ==> p.role == Some(Singular("directors")) && p.films == []
  {
    var gs := Field(d, "genres");
    SingularOfRoles();
    Film(d.uuid, d.title, d.description, d.imdbRating,
         seq(|gs|, i requires 0 <= i < |gs| => Genre(gs[i].uuid, gs[i].name)),
         Tagged(Field(d, "actors"), "actor"),
         Tagged(Field(d, "writers"), "writer"),
         Tagged(Field(d, "directors"), "director"))
  }

  /** Each role list of the film holds exactly the document's records for that role, in
      source order, and a list missing from the document is empty. */
  lemma BuildFilmKeepsPeople(d: Doc)
    ensures Untagged(BuildFilm(d).actors) == Field(d, "actors")
    ensures Untagged(BuildFilm(d).writers) == Field(d, "writers")
    ensures Untagged(BuildFilm(d).directors) == Field(d, "directors")
    ensures "actors" !in d.lists ==> BuildFilm(d).actors == []
    ensures "writers" !in d.lists ==> BuildFilm(d).writers == []
    ensures "directors" !in d.lists ==> BuildFilm(d).directors == []
  {
    var f := BuildFilm(d);
    assert Untagged(f.actors) == Field(d, "actors");
    assert Untagged(f.writers) == Field(d, "writers");
    assert Untagged(f.directors) == Field(d, "directors");
  }

  /** `FilmService.get_film_by_id`; `found` is the engine's get of the document with id
      `filmId`, `None` when it raises `NotFoundError`. */
  function GetFilmById(cache: Store, ttl: int, filmId: string, found: Option<Doc>): (r: Reply<Option<Film>>)
    ensures var key := FilmKey(filmId);
      && (key in cache ==> r.cache == cache && (r.result.Err? <==> !cache[key].payload.FilmJson?))
      && (key !in cache && found.None? ==> r == Reply(Ok(None), cache))
      && (key !in cache && found.Some? ==>
            && r.result == Ok(Some(BuildFilm(found.value)))
            && r.cache.Keys == cache.Keys + {key}
            && (forall k :: k in cache ==> r.cache[k] == cache[k])
            && r.cache[key].ttl == ttl)
  {
    var key := FilmKey(filmId);
    if key in cache then
      match cache[key].payload
      case FilmJson(film) => Reply(Ok(Some(film)), cache)
      case _ => Reply(Err(UnreadablePayload(key)), cache)
    else
      match found
      case None => Reply(Ok(None), cache)
      case Some(d) =>
        var film := BuildFilm(d);
        Reply(Ok(Some(film)), cache[key := Entry(FilmJson(film), ttl)])
  }

  /** After a successful lookup, a second lookup is a hit that returns the same film, and
      after a not-found the cache is as it was, so the next lookup asks the engine again. */
  lemma GetFilmByIdRoundTrip(cache: Store, ttl: int, ttl2: int, filmId: string, found: Option<Doc>, found2: Option<Doc>)
    requires FilmKey(filmId) !in cache
    ensures var miss := GetFilmById(cache, ttl, filmId, found);
      && (found.Some? ==> GetFilmById(miss.cache, ttl2, filmId, found2) == miss)
      && (found.None? ==> miss.cache == cache)
  {
  }

  /** Film service calls keep a well-shaped cache well shaped, and on a well-shaped cache
      a hit never fails to parse. */
  lemma ListFilmsKeepsShape(cache: Store, ttl: int, size: int, page: int, sort: string, engine: FilmsQuery -> seq<Doc>)
    requires WellShaped(cache)
    ensures WellShaped(ListFilms(cache, ttl, size, page, sort, engine).cache)
    ensures FilmsPageKey(page, size, sort) in cache ==> ListFilms(cache, ttl, size, page, sort, engine).result.Ok?
  {
    FilmsPagePrefix(IntToString(page) + ":size=" + IntToString(size) + ":sort=" + sort);
    var r := ListFilms(cache, ttl, size, page, sort, engine);
    if r.cache != cache {
      assert r.cache == cache[FilmsPageKey(page, size, sort) := r.cache[FilmsPageKey(page, size, sort)]];
      WriteKeepsShape(cache, FilmsPageKey(page, size, sort), r.cache[FilmsPageKey(page, size, sort)]);
    }
  }

  lemma SearchFilmsKeepsShape(cache: Store, ttl: int, query: string, size: int, hits: seq<Doc>)
    requires WellShaped(cache)
    ensures WellShaped(SearchFilms(cache, ttl, query, size, hits).cache)
    ensures FilmSearchKey(query, size) in cache ==> SearchFilms(cache, ttl, query, size, hits).result.Ok?
  {
    FilmSearchPrefix(query + ":" + IntToString(size));
    var r := SearchFilms(cache, ttl, query, size, hits);
    if r.cache != cache {
      assert r.cache == cache[FilmSearchKey(query, size) := r.cache[FilmSearchKey(query, size)]];
      WriteKeepsShape(cache, FilmSearchKey(query, size), r.cache[FilmSearchKey(query, size)]);
    }
  }

  lemma GetFilmByIdKeepsShape(cache: Store, ttl: int, filmId: string, found: Option<Doc>)
    requires WellShaped(cache)
    ensures WellShaped(GetFilmById(cache, ttl, filmId, found).cache)
    ensures FilmKey(filmId) in cache ==> GetFilmById(cache, ttl, filmId, found).result.Ok?
  {
    FilmByIdPrefix(filmId);
    var r := GetFilmById(cache, ttl, filmId, found);
    if r.cache != cache {
      assert r.cache == cache[FilmKey(filmId) := r.cache[FilmKey(filmId)]];
      WriteKeepsShape(cache, FilmKey(filmId), r.cache[FilmKey(filmId)]);
    }
  }
}

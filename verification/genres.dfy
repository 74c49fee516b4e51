/** `GenreService`: the genre list, the genre search and the genre lookup. Like persons,
    genres live inside film documents, in their `genres` record list. */
module Genres {
  import opened Common
  import opened Strings
  import opened Documents
  import opened OrderedMaps
  import opened Paging
  import opened Cache

  /** The (uuid, name) writes the genre-list scroll loop makes into its dict, document by
      document, genre record by genre record. */
  function GenreWrites(docs: seq<Doc>): seq<(string, string)> {
    if |docs| == 0 then [] else Pairs(Field(docs[0], "genres")) + GenreWrites(docs[1..])
  }

  /** Exactly the (uuid, name) pairs of the documents' genre records are written. */
  lemma {:induction false} GenreWritesFrom(docs: seq<Doc>, w: (string, string))
    ensures w in GenreWrites(docs) <==> exists i :: 0 <= i < |docs| && Record(w.0, w.1) in Field(docs[i], "genres")
  {
    if |docs| > 0 {
      GenreWritesFrom(docs[1..], w);
      var recs := Field(docs[0], "genres");
      assert w in Pairs(recs) <==> Record(w.0, w.1) in recs by {
        if w in Pairs(recs) {
          var i :| 0 <= i < |recs| && Pairs(recs)[i] == w;
          assert recs[i] == Record(w.0, w.1);
        }
        if Record(w.0, w.1) in recs {
          var i :| 0 <= i < |recs| && recs[i] == Record(w.0, w.1);
          assert Pairs(recs)[i] == w;
        }
      }
      if exists i :: 0 <= i < |docs| && Record(w.0, w.1) in Field(docs[i], "genres") {
        var i :| 0 <= i < |docs| && Record(w.0, w.1) in Field(docs[i], "genres");
        if i > 0 {
          assert docs[1..][i - 1] == docs[i];
        }
      }
      if exists i :: 0 <= i < |docs| - 1 && Record(w.0, w.1) in Field(docs[1..][i], "genres") {
        var i :| 0 <= i < |docs| - 1 && Record(w.0, w.1) in Field(docs[1..][i], "genres");
        assert docs[i + 1] == docs[1..][i];
      }
    }
  }

  /** Genres rebuilt from (uuid, name) pairs. */
  function NamesToGenres(m: seq<(string, string)>): (gs: seq<Genre>)
    ensures |gs| == |m|
    ensures forall i :: 0 <= i < |m| ==> gs[i] == Genre(m[i].0, m[i].1)
  {
    seq(|m|, i requires 0 <= i < |m| => Genre(m[i].0, m[i].1))
  }

  function GenreUuids(gs: seq<Genre>): seq<string> {
    seq(|gs|, i requires 0 <= i < |gs| => gs[i].uuid)
  }

  /** `GenreService.list_genres`; `batches` are the scroll's answers. */
  function ListGenres(cache: Store, ttl: int, size: int, page: int, batches: seq<seq<Doc>>): (r: Reply<seq<Genre>>)
    ensures var key := GenresPageKey(page, size);
      && (key in cache ==> r.cache == cache && (r.result.Err? <==> !cache[key].payload.NameMap?))
      && (key !in cache ==>
            && r.result.Ok?
            && r.cache.Keys == cache.Keys + {key}
            && (forall k :: k in cache ==> r.cache[k] == cache[k])
            && r.cache[key].ttl == ttl
            && (0 <= size ==> |r.result.value| <= size))
    ensures r.result.Ok? ==> Distinct(GenreUuids(r.result.value))
  {
    var key := GenresPageKey(page, size);
    if key in cache then
      match cache[key].payload
      case NameMap(entries) =>
        var d := Collect(entries);
        assert GenreUuids(NamesToGenres(d)) == Keys(d);
        Reply(Ok(NamesToGenres(d)), cache)
      case _ => Reply(Err(UnreadablePayload(key)), cache)
    else
      var all := Collect(GenreWrites(Scrolled(batches)));
      var limited := PagedDict(all, page, size);
      PagedDictIsPage(all, page, size);
      assert 0 <= size ==> |limited| <= size by {
        if 0 <= size { PageBound(all, page, size); }
      }
      assert GenreUuids(NamesToGenres(limited)) == Keys(limited);
      Reply(Ok(NamesToGenres(limited)), cache[key := Entry(NameMap(limited), ttl)])
  }

  /** The aggregation behind the genre list: every genre uuid of the scrolled documents
      appears once, in the order of its first appearance, with the name written for it last. */
  lemma ListGenresAggregation(docs: seq<Doc>)
    ensures var ws, all := GenreWrites(docs), Collect(GenreWrites(docs));
      && Distinct(Keys(all))
      && (forall i, g :: 0 <= i < |docs| && g in Field(docs[i], "genres") ==> g.uuid in Keys(all))
      && (forall i :: 0 <= i < |all| ==>
            exists j :: 0 <= j < |docs| && Record(all[i].0, all[i].1) in Field(docs[j], "genres"))
      && (forall u :: u in Keys(ws) ==> Find(all, u) == Some(LastValue(ws, u)))
      && (forall i, j :: 0 <= i < j < |all| ==> FirstIndex(ws, all[i].0) < FirstIndex(ws, all[j].0))
  {
    var ws, all := GenreWrites(docs), Collect(GenreWrites(docs));
    CollectCharacterised(ws);
    forall i, g | 0 <= i < |docs| && g in Field(docs[i], "genres")
      ensures g.uuid in Keys(all)
    {
      GenreWritesFrom(docs, (g.uuid, g.name));
      var k :| 0 <= k < |ws| && ws[k] == (g.uuid, g.name);
      assert Keys(ws)[k] == g.uuid;
    }
    forall i | 0 <= i < |all|
      ensures exists j :: 0 <= j < |docs| && Record(all[i].0, all[i].1) in Field(docs[j], "genres")
    {
      CollectValuesFrom(ws, i);
      GenreWritesFrom(docs, all[i]);
    }
  }

  /** One page of a dict of names, as genres. */
  lemma {:induction false} NamesPage(all: seq<(string, string)>, page: int, size: int)
    requires Distinct(Keys(all))
    requires 1 <= page && 0 <= size
    ensures var start, gs := Offset(page, size), NamesToGenres(PagedDict(all, page, size));
      && 0 <= start
      && |gs| == (if start >= |all| then 0 else if |all| - start < size then |all| - start else size)
      && forall i :: 0 <= i < |gs| ==> gs[i] == Genre(all[start + i].0, all[start + i].1)
  {
    PagedDictIsPage(all, page, size);
    PageContents(all, page, size);
  }

  /** On a miss with page 1 or later, the list is the page's slice of the aggregated genres. */
  lemma {:induction false} ListGenresPage(cache: Store, ttl: int, size: int, page: int, batches: seq<seq<Doc>>)
    requires GenresPageKey(page, size) !in cache
    requires 1 <= page && 0 <= size
    ensures var all, gs := Collect(GenreWrites(Scrolled(batches))), ListGenres(cache, ttl, size, page, batches).result.value;
      var start := Offset(page, size);
      && 0 <= start
      && |gs| == (if start >= |all| then 0 else if |all| - start < size then |all| - start else size)
      && forall i :: 0 <= i < |gs| ==> gs[i] == Genre(all[start + i].0, all[start + i].1)
  {
    var all := Collect(GenreWrites(Scrolled(batches)));
    assert ListGenres(cache, ttl, size, page, batches).result.value == NamesToGenres(PagedDict(all, page, size));
    NamesPage(all, page, size);
  }

  /** A hit on a key a miss filled returns the miss's genres, and changes nothing. */
  lemma ListGenresRoundTrip(cache: Store, ttl: int, ttl2: int, size: int, page: int,
                            batches: seq<seq<Doc>>, batches2: seq<seq<Doc>>)
    requires GenresPageKey(page, size) !in cache
    ensures var miss := ListGenres(cache, ttl, size, page, batches);
      ListGenres(miss.cache, ttl2, size, page, batches2) == miss
  {
    var all := Collect(GenreWrites(Scrolled(batches)));
    var limited := PagedDict(all, page, size);
    CollectDistinct(limited);
  }

  /** A genre-list miss leaves every other page and page size as it was. */
  lemma ListGenresLeavesOtherRequests(cache: Store, ttl: int, size: int, page: int, batches: seq<seq<Doc>>,
                                      size2: int, page2: int)
    requires (page2, size2) != (page, size)
    ensures var after := ListGenres(cache, ttl, size, page, batches).cache;
      var key2 := GenresPageKey(page2, size2);
      (key2 in after <==> key2 in cache) && (key2 in cache ==> after[key2] == cache[key2])
  {
    if GenresPageKey(page2, size2) == GenresPageKey(page, size) {
      GenresPageKeyInjective(page2, size2, page, size);
    }
  }

  /** The search filter: a name and a uuid that are present and non-empty, and the query,
      lower-cased, occurring in the lower-cased name. */
  predicate Matches(g: Record, query: string) {
    g.name != "" && g.uuid != "" && Contains(Lower(query), Lower(g.name))
  }

  /** The writes the genre search makes into its dict for one list of genre records: each
      passing record, as a genre, under its own uuid. */
  function MatchWrites(recs: seq<Record>, query: string): seq<(string, Genre)> {
    if |recs| == 0 then []
    else if Matches(recs[0], query) then [(recs[0].uuid, Genre(recs[0].uuid, recs[0].name))] + MatchWrites(recs[1..], query)
    else MatchWrites(recs[1..], query)
  }

  /** All writes of the search loop, hit by hit. */
  function SearchWrites(docs: seq<Doc>, query: string): seq<(string, Genre)> {
    if |docs| == 0 then [] else MatchWrites(Field(docs[0], "genres"), query) + SearchWrites(docs[1..], query)
  }

  lemma {:induction false} MatchWritesFrom(recs: seq<Record>, query: string, w: (string, Genre))
    ensures w in MatchWrites(recs, query) <==>
      Record(w.1.uuid, w.1.name) in recs && Matches(Record(w.1.uuid, w.1.name), query) && w.0 == w.1.uuid
  {
    if |recs| > 0 {
      MatchWritesFrom(recs[1..], query, w);
      var g := Record(w.1.uuid, w.1.name);
      if g in recs && g != recs[0] {
        assert g in recs[1..];
      }
      if g == recs[0] {
        assert g.uuid == recs[0].uuid && g.name == recs[0].name;
      }
    }
  }

  /** Exactly the matching genre records of the hits are written, each under its own uuid. */
  lemma {:induction false} SearchWritesFrom(docs: seq<Doc>, query: string, w: (string, Genre))
    ensures w in SearchWrites(docs, query) <==>
      w.0 == w.1.uuid && Matches(Record(w.1.uuid, w.1.name), query) &&
      exists i :: 0 <= i < |docs| && Record(w.1.uuid, w.1.name) in Field(docs[i], "genres")
  {
    if |docs| > 0 {
      SearchWritesFrom(docs[1..], query, w);
      MatchWritesFrom(Field(docs[0], "genres"), query, w);
      var g := Record(w.1.uuid, w.1.name);
      if exists i :: 0 <= i < |docs| && g in Field(docs[i], "genres") {
        var i :| 0 <= i < |docs| && g in Field(docs[i], "genres");
        if i > 0 {
          assert docs[1..][i - 1] == docs[i];
        }
      }
      if exists i :: 0 <= i < |docs| - 1 && g in Field(docs[1..][i], "genres") {
        var i :| 0 <= i < |docs| - 1 && g in Field(docs[1..][i], "genres");
        assert docs[i + 1] == docs[1..][i];
      }
    }
  }

  /** `GenreService.search_genres`; `hits` are the engine's answer to the nested match query. */
  function SearchGenres(cache: Store, ttl: int, query: string, hits: seq<Doc>): (r: Reply<seq<Genre>>)
    ensures var key := GenreSearchKey(query);
      && (key in cache ==> r.cache == cache)
      && (key in cache ==>
            (r.result.Err? <==> !cache[key].payload.GenreList? && !EmptyCollection(cache[key].payload)))
      && (key in cache && EmptyCollection(cache[key].payload) ==> r.result == Ok([]))
      && (key !in cache ==>
            && r.result.Ok?
            && Distinct(GenreUuids(r.result.value))
            && r.cache.Keys == cache.Keys + {key}
            && (forall k :: k in cache ==> r.cache[k] == cache[k])
            && r.cache[key] == Entry(GenreList(r.result.value), ttl))
  {
    var key := GenreSearchKey(query);
    if key in cache then
      match cache[key].payload
      case GenreList(gs) => Reply(Ok(gs), cache)
      case _ =>
        if EmptyCollection(cache[key].payload) then Reply(Ok([]), cache)
        else Reply(Err(UnreadablePayload(key)), cache)
    else
      var ws := SearchWrites(hits, query);
      var unique := Collect(ws);
      var result := Values(unique);
      assert GenreUuids(result) == Keys(unique) by {
        forall i | 0 <= i < |unique|
          ensures unique[i].1.uuid == unique[i].0
        {
          CollectValuesFrom(ws, i);
          SearchWritesFrom(hits, query, unique[i]);
        }
      }
      Reply(Ok(result), cache[key := Entry(GenreList(result), ttl)])
  }

  /** Every deduplicated genre is a passing genre record of some hit, kept under its own uuid. */
  lemma UniqueGenreSound(hits: seq<Doc>, query: string, i: int)
    requires 0 <= i < |Collect(SearchWrites(hits, query))|
    ensures var w := Collect(SearchWrites(hits, query))[i];
      && w.1.uuid == w.0
      && Matches(Record(w.1.uuid, w.1.name), query)
      && exists j :: 0 <= j < |hits| && Record(w.1.uuid, w.1.name) in Field(hits[j], "genres")
  {
    var ws := SearchWrites(hits, query);
    CollectValuesFrom(ws, i);
    SearchWritesFrom(hits, query, Collect(ws)[i]);
  }

  /** Every passing genre record of every hit has its uuid among the deduplicated genres. */
  lemma {:induction false} UniqueGenresComplete(hits: seq<Doc>, query: string, i: int, g: Record)
    requires 0 <= i < |hits| && g in Field(hits[i], "genres") && Matches(g, query)
    ensures g.uuid in Keys(Collect(SearchWrites(hits, query)))
  {
    var ws := SearchWrites(hits, query);
    var w := (g.uuid, Genre(g.uuid, g.name));
    SearchWritesFrom(hits, query, w);
    var k :| 0 <= k < |ws| && ws[k] == w;
    assert Keys(ws)[k] == g.uuid;
  }

  /** On a miss each genre returned passes the filter and is a genre record of some hit. */
  lemma {:induction false} SearchGenresSound(cache: Store, ttl: int, query: string, hits: seq<Doc>)
    requires GenreSearchKey(query) !in cache
    ensures forall g :: g in SearchGenres(cache, ttl, query, hits).result.value ==>
      Matches(Record(g.uuid, g.name), query) &&
      exists i :: 0 <= i < |hits| && Record(g.uuid, g.name) in Field(hits[i], "genres")
  {
    var unique := Collect(SearchWrites(hits, query));
    var gs := SearchGenres(cache, ttl, query, hits).result.value;
    assert gs == Values(unique);
    forall g | g in gs
      ensures Matches(Record(g.uuid, g.name), query)
      ensures exists i :: 0 <= i < |hits| && Record(g.uuid, g.name) in Field(hits[i], "genres")
    {
      var m :| 0 <= m < |gs| && gs[m] == g;
      assert gs[m] == Values(unique)[m] == unique[m].1;
      UniqueGenreSound(hits, query, m);
    }
  }

  /** On a miss the uuid of every passing genre record of every hit is returned. */
  lemma {:induction false} SearchGenresComplete(cache: Store, ttl: int, query: string, hits: seq<Doc>, i: int, g: Record)
    requires GenreSearchKey(query) !in cache
    requires 0 <= i < |hits| && g in Field(hits[i], "genres") && Matches(g, query)
    ensures g.uuid in GenreUuids(SearchGenres(cache, ttl, query, hits).result.value)
  {
    var unique := Collect(SearchWrites(hits, query));
    var gs := SearchGenres(cache, ttl, query, hits).result.value;
    assert gs == Values(unique);
    UniqueGenresComplete(hits, query, i, g);
    var m :| 0 <= m < |unique| && Keys(unique)[m] == g.uuid;
    UniqueGenreSound(hits, query, m);
    assert GenreUuids(gs)[m] == unique[m].1.uuid == g.uuid;
  }

  /** On a miss, for a uuid with several passing records the genre returned is the last
      one written, and uuids come in the order of their first passing record. */
  lemma {:induction false} SearchGenresOrder(cache: Store, ttl: int, query: string, hits: seq<Doc>)
    requires GenreSearchKey(query) !in cache
    ensures var ws, gs := SearchWrites(hits, query), SearchGenres(cache, ttl, query, hits).result.value;
      && (forall u :: u in Keys(ws) ==> Find(Collect(ws), u) == Some(LastValue(ws, u)))
      && (forall i :: 0 <= i < |gs| ==> gs[i].uuid in Keys(ws) && gs[i] == LastValue(ws, gs[i].uuid))
      && (forall i, j :: 0 <= i < j < |gs| ==> FirstIndex(ws, gs[i].uuid) < FirstIndex(ws, gs[j].uuid))
  {
    var ws := SearchWrites(hits, query);
    var unique := Collect(ws);
    var gs := SearchGenres(cache, ttl, query, hits).result.value;
    assert gs == Values(unique);
    CollectCharacterised(ws);
    forall i | 0 <= i < |gs|
      ensures gs[i].uuid == Keys(unique)[i]
      ensures gs[i].uuid in Keys(ws) && gs[i] == LastValue(ws, gs[i].uuid)
    {
      assert gs[i] == Values(unique)[i] == unique[i].1;
      UniqueGenreSound(hits, query, i);
      FirstIndexDistinct(unique, i);
      assert Find(unique, unique[i].0) == Some(unique[i].1);
    }
  }

  /** A hit after a miss returns the miss's genres exactly, and changes nothing. */
  lemma SearchGenresRoundTrip(cache: Store, ttl: int, ttl2: int, query: string, hits: seq<Doc>, hits2: seq<Doc>)
    requires GenreSearchKey(query) !in cache
    ensures var miss := SearchGenres(cache, ttl, query, hits);
      SearchGenres(miss.cache, ttl2, query, hits2) == miss
  {
  }

  /** The name the `genres_cache` dump holds for `id`, when it is a name map holding `id`. */
  function DumpedName(cache: Store, id: string): (r: Option<string>)
    ensures r.Some? ==>
      (GenresDumpKey in cache && cache[GenresDumpKey].payload.NameMap? &&
       id in Keys(cache[GenresDumpKey].payload.entries))
  {
    if GenresDumpKey in cache && cache[GenresDumpKey].payload.NameMap? then
      Find(Collect(cache[GenresDumpKey].payload.entries), id)
    else None
  }

  /** `GenreService.get_genre_by_id`: the dump first, then the size-1 term search whose
      answer is `hits`. The cache is only read. */
  function GetGenreById(cache: Store, genreId: string, hits: seq<Doc>): (r: Option<Genre>)
    ensures r.Some? ==> r.value.uuid == genreId
    ensures DumpedName(cache, genreId).None? ==>
      (r.None? <==> |hits| == 0 || forall j :: 0 <= j < |Field(hits[0], "genres")| ==> Field(hits[0], "genres")[j].uuid != genreId)
    ensures DumpedName(cache, genreId).None? && r.Some? ==> Record(r.value.uuid, r.value.name) in Field(hits[0], "genres")
    ensures DumpedName(cache, genreId).None? && r.Some? ==>
      FindRecord(Field(hits[0], "genres"), genreId) == Some(Record(r.value.uuid, r.value.name))
  {
    match DumpedName(cache, genreId)
    case Some(name) => Some(Genre(genreId, name))
    case None =>
      if |hits| == 0 then None
      else
        match FindRecord(Field(hits[0], "genres"), genreId)
        case Some(g) => Some(Genre(g.uuid, g.name))
        case None => None
  }

  /** When the dump maps `genreId`, its name is the one written last for it in the dump,
      and the search is never consulted. */
  lemma GetGenreByIdFromDump(cache: Store, genreId: string, hits: seq<Doc>, hits2: seq<Doc>)
    requires GenresDumpKey in cache && cache[GenresDumpKey].payload.NameMap?
    requires genreId in Keys(cache[GenresDumpKey].payload.entries)
    ensures var entries := cache[GenresDumpKey].payload.entries;
      GetGenreById(cache, genreId, hits) == Some(Genre(genreId, LastValue(entries, genreId)))
    ensures GetGenreById(cache, genreId, hits) == GetGenreById(cache, genreId, hits2)
  {
    CollectCharacterised(cache[GenresDumpKey].payload.entries);
  }

  /** Genre service calls keep a well-shaped cache well shaped, and on a well-shaped cache
      a hit never fails to parse. */
  lemma ListGenresKeepsShape(cache: Store, ttl: int, size: int, page: int, batches: seq<seq<Doc>>)
    requires WellShaped(cache)
    ensures WellShaped(ListGenres(cache, ttl, size, page, batches).cache)
    ensures GenresPageKey(page, size) in cache ==> ListGenres(cache, ttl, size, page, batches).result.Ok?
  {
    GenresPagePrefix(IntToString(page) + ":size=" + IntToString(size));
    var r := ListGenres(cache, ttl, size, page, batches);
    if r.cache != cache {
      assert r.cache == cache[GenresPageKey(page, size) := r.cache[GenresPageKey(page, size)]];
      WriteKeepsShape(cache, GenresPageKey(page, size), r.cache[GenresPageKey(page, size)]);
    }
  }

  lemma SearchGenresKeepsShape(cache: Store, ttl: int, query: string, hits: seq<Doc>)
    requires WellShaped(cache)
    ensures WellShaped(SearchGenres(cache, ttl, query, hits).cache)
    ensures SearchGenres(cache, ttl, query, hits).result.Ok?
  {
    GenreSearchPrefix(query);
    var r := SearchGenres(cache, ttl, query, hits);
    if r.cache != cache {
      assert r.cache == cache[GenreSearchKey(query) := r.cache[GenreSearchKey(query)]];
      WriteKeepsShape(cache, GenreSearchKey(query), r.cache[GenreSearchKey(query)]);
    }
  }
}

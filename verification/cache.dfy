/** The cache as the services see it: a map from key to the payload last written there,
    together with the expiry the write asked for. Payloads are the JSON shapes the
    services serialise, as structured values. */
module Cache {
  import opened Common
  import opened Strings
  import opened Documents

  /** The expiry every service uses unless constructed with another. */
  const CacheTtl: int := 300

  /** One `{uuid, full_name, role}` object of the person-search payload. */
  datatype PersonEntry = PersonEntry(uuid: string, fullName: string, role: Option<string>)

  datatype Payload =
    /** A JSON object from uuid to name, in key order. */
    | NameMap(entries: seq<(string, string)>)
    /** A JSON list of `{uuid, title, imdb_rating}` objects. */
    | FilmShortList(films: seq<FilmShort>)
    /** A JSON list of `{uuid, full_name, role}` objects. */
    | PersonEntries(persons: seq<PersonEntry>)
    /** A JSON list of `{uuid, name}` objects. */
    | GenreList(genres: seq<Genre>)
    /** The JSON serialisation of a full person. */
    | PersonJson(person: Person)
    /** The JSON serialisation of a full film. */
    | FilmJson(film: Film)

  /** A payload whose JSON text is `[]` or `{}`. A reader that iterates the decoded value
      finds nothing in it, whatever shape the reader expected. */
  predicate EmptyCollection(p: Payload) {
    || (p.NameMap? && |p.entries| == 0)
    || (p.FilmShortList? && |p.films| == 0)
    || (p.PersonEntries? && |p.persons| == 0)
    || (p.GenreList? && |p.genres| == 0)
  }

  datatype Entry = Entry(payload: Payload, ttl: int)

  type Store = map<string, Entry>

  /** What a service call returns, and the cache after it. */
  datatype Reply<T> = Reply(result: Result<T>, cache: Store)

  // Cache keys, one constructor per service method.

  function PersonsPageKey(page: int, size: int): string {
    "persons:page=" + (IntToString(page) + ":size=" + IntToString(size))
  }

  function PersonKey(personId: string): string {
    "person:" + personId
  }

  function PersonSearchKey(query: string): string {
    "search_persons:" + query
  }

  function FilmsPageKey(page: int, size: int, sort: string): string {
    "list_films:page=" + (IntToString(page) + ":size=" + IntToString(size) + ":sort=" + sort)
  }

  function FilmSearchKey(query: string, size: int): string {
    "search_films:" + (query + ":" + IntToString(size))
  }

  function FilmKey(filmId: string): string {
    "film:" + filmId
  }

  function GenresPageKey(page: int, size: int): string {
    "genres:page=" + (IntToString(page) + ":size=" + IntToString(size))
  }

  function GenreSearchKey(query: string): string {
    "search_genres:" + query
  }

  /** The fixed key the genre lookup reads; no service here writes it. */
  const GenresDumpKey: string := "genres_cache"

  /** Which service method a key belongs to, read off its prefix. */
  datatype Family =
    | PersonsPage | PersonById | PersonSearch
    | FilmsPage | FilmSearch | FilmById
    | GenresPage | GenreSearch | GenresDump | Foreign

  function FamilyOf(key: string): Family {
    if StartsWith(key, "persons:page=") then PersonsPage
    else if StartsWith(key, "person:") then PersonById
    else if StartsWith(key, "search_persons:") then PersonSearch
    else if StartsWith(key, "list_films:page=") then FilmsPage
    else if StartsWith(key, "search_films:") then FilmSearch
    else if StartsWith(key, "film:") then FilmById
    else if StartsWith(key, "genres:page=") then GenresPage
    else if StartsWith(key, "search_genres:") then GenreSearch
    else if key == GenresDumpKey then GenresDump
    else Foreign
  }

  /** Each key constructor lands in its own family, so keys of different service
      methods never coincide and a miss in one method never overwrites another's entry. */
  lemma FamiliesOfKeys(page: int, size: int, sort: string, id: string, query: string)
    ensures FamilyOf(PersonsPageKey(page, size)) == PersonsPage
    ensures FamilyOf(PersonKey(id)) == PersonById
    ensures FamilyOf(PersonSearchKey(query)) == PersonSearch
    ensures FamilyOf(FilmsPageKey(page, size, sort)) == FilmsPage
    ensures FamilyOf(FilmSearchKey(query, size)) == FilmSearch
    ensures FamilyOf(FilmKey(id)) == FilmById
    ensures FamilyOf(GenresPageKey(page, size)) == GenresPage
    ensures FamilyOf(GenreSearchKey(query)) == GenreSearch
    ensures FamilyOf(GenresDumpKey) == GenresDump
  {
    var p, s := IntToString(page), IntToString(size);
    PersonsPagePrefix(p + ":size=" + s);
    PersonByIdPrefix(id);
    PersonSearchPrefix(query);
    FilmsPagePrefix(p + ":size=" + s + ":sort=" + sort);
    FilmSearchPrefix(query + ":" + s);
    FilmByIdPrefix(id);
    GenresPagePrefix(p + ":size=" + s);
    GenreSearchPrefix(query);
    GenresDumpFamily();
  }

  /** A string differing from `p` at some position of `p` does not start with `p`. */
  lemma NotPrefixAt(k: string, p: string, i: nat)
    requires i < |p| && (i >= |k| || k[i] != p[i])
    ensures !StartsWith(k, p)
  {
    assert |p| <= |k| ==> k[..|p|][i] == k[i];
  }

  lemma PersonsPagePrefix(rest: string)
    ensures FamilyOf("persons:page=" + rest) == PersonsPage
  {
    var k := "persons:page=" + rest;
    assert k[..13] == "persons:page=";
  }

  lemma PersonByIdPrefix(rest: string)
    ensures FamilyOf("person:" + rest) == PersonById
  {
    var k := "person:" + rest;
    assert k[..7] == "person:";
    assert k[6] == ':';
    NotPrefixAt(k, "persons:page=", 6);
  }

  lemma PersonSearchPrefix(rest: string)
    ensures FamilyOf("search_persons:" + rest) == PersonSearch
  {
    var k := "search_persons:" + rest;
    assert k[..15] == "search_persons:";
    assert k[0] == 's';
    NotPrefixAt(k, "persons:page=", 0);
    NotPrefixAt(k, "person:", 0);
  }

  lemma FilmsPagePrefix(rest: string)
    ensures FamilyOf("list_films:page=" + rest) == FilmsPage
  {
    var k := "list_films:page=" + rest;
    assert k[..16] == "list_films:page=";
    assert k[0] == 'l';
    NotPrefixAt(k, "persons:page=", 0);
    NotPrefixAt(k, "person:", 0);
    NotPrefixAt(k, "search_persons:", 0);
  }

  lemma FilmSearchPrefix(rest: string)
    ensures FamilyOf("search_films:" + rest) == FilmSearch
  {
    var k := "search_films:" + rest;
    assert k[..13] == "search_films:";
    assert k[0] == 's';
    assert k[7] == 'f';
    NotPrefixAt(k, "persons:page=", 0);
    NotPrefixAt(k, "person:", 0);
    NotPrefixAt(k, "search_persons:", 7);
    NotPrefixAt(k, "list_films:page=", 0);
  }

  lemma FilmByIdPrefix(rest: string)
    ensures FamilyOf("film:" + rest) == FilmById
  {
    var k := "film:" + rest;
    assert k[..5] == "film:";
    assert k[0] == 'f';
    NotPrefixAt(k, "persons:page=", 0);
    NotPrefixAt(k, "person:", 0);
    NotPrefixAt(k, "search_persons:", 0);
    NotPrefixAt(k, "list_films:page=", 0);
    NotPrefixAt(k, "search_films:", 0);
  }

  lemma GenresPagePrefix(rest: string)
    ensures FamilyOf("genres:page=" + rest) == GenresPage
  {
    var k := "genres:page=" + rest;
    assert k[..12] == "genres:page=";
    assert k[0] == 'g';
    NotPrefixAt(k, "persons:page=", 0);
    NotPrefixAt(k, "person:", 0);
    NotPrefixAt(k, "search_persons:", 0);
    NotPrefixAt(k, "list_films:page=", 0);
    NotPrefixAt(k, "search_films:", 0);
    NotPrefixAt(k, "film:", 0);
  }

  lemma GenreSearchPrefix(rest: string)
    ensures FamilyOf("search_genres:" + rest) == GenreSearch
  {
    var k := "search_genres:" + rest;
    assert k[..14] == "search_genres:";
    assert k[0] == 's';
    assert k[7] == 'g';
    NotPrefixAt(k, "persons:page=", 0);
    NotPrefixAt(k, "person:", 0);
    NotPrefixAt(k, "search_persons:", 7);
    NotPrefixAt(k, "list_films:page=", 0);
    NotPrefixAt(k, "search_films:", 7);
    NotPrefixAt(k, "film:", 0);
    NotPrefixAt(k, "genres:page=", 0);
  }

  lemma GenresDumpFamily()
    ensures FamilyOf(GenresDumpKey) == GenresDump
  {
    var k := GenresDumpKey;
    NotPrefixAt(k, "persons:page=", 0);
    NotPrefixAt(k, "person:", 0);
    NotPrefixAt(k, "search_persons:", 0);
    NotPrefixAt(k, "list_films:page=", 0);
    NotPrefixAt(k, "search_films:", 0);
    NotPrefixAt(k, "film:", 0);
    NotPrefixAt(k, "genres:page=", 6);
    NotPrefixAt(k, "search_genres:", 0);
  }

  /** The part of `s` before the first `c`. */
  function BeforeFirst(s: string, c: char): string {
    if |s| == 0 || s[0] == c then [] else [s[0]] + BeforeFirst(s[1..], c)
  }

  /** The part of `s` after the last `c`. */
  function AfterLast(s: string, c: char): string {
    if |s| == 0 || s[|s| - 1] == c then [] else AfterLast(s[..|s| - 1], c) + [s[|s| - 1]]
  }

  lemma {:induction false} BeforeFirstOfJoin(x: string, y: string, c: char)
    requires c !in x && 0 < |y| && y[0] == c
    ensures BeforeFirst(x + y, c) == x
  {
    if |x| > 0 {
      assert (x + y)[1..] == x[1..] + y;
      BeforeFirstOfJoin(x[1..], y, c);
      assert [x[0]] + x[1..] == x;
    } else {
      assert x + y == y;
    }
  }

  lemma {:induction false} AfterLastOfJoin(x: string, y: string, c: char)
    requires c !in y
    ensures AfterLast(x + [c] + y, c) == y
  {
    var s := x + [c] + y;
    if |y| > 0 {
      var n := |y| - 1;
      assert s[..|s| - 1] == x + [c] + y[..n];
      AfterLastOfJoin(x, y[..n], c);
      assert y[..n] + [y[n]] == y;
    }
  }

  /** Two strings joined at a separator that occurs in neither left part split back uniquely. */
  lemma SplitAtSeparator(x1: string, y1: string, x2: string, y2: string, c: char)
    requires c !in x1 && c !in x2
    requires 0 < |y1| && y1[0] == c && 0 < |y2| && y2[0] == c
    requires x1 + y1 == x2 + y2
    ensures x1 == x2 && y1 == y2
  {
    BeforeFirstOfJoin(x1, y1, c);
    BeforeFirstOfJoin(x2, y2, c);
    DropCommonPrefix(x1, y1, y2);
  }

  /** Two strings joined at a separator that occurs in neither right part split back uniquely. */
  lemma SplitAtLastSeparator(x1: string, y1: string, x2: string, y2: string, c: char)
    requires c !in y1 && c !in y2
    requires x1 + [c] + y1 == x2 + [c] + y2
    ensures x1 == x2 && y1 == y2
  {
    AfterLastOfJoin(x1, y1, c);
    AfterLastOfJoin(x2, y2, c);
    var s := x1 + [c] + y1;
    assert x1 == s[..|x1|];
    assert x2 == (x2 + [c] + y2)[..|x2|];
  }

  lemma DropCommonPrefix(p: string, u: string, v: string)
    requires p + u == p + v
    ensures u == v
  {
    assert u == (p + u)[|p|..];
    assert v == (p + v)[|p|..];
  }

  /** Distinct page requests get distinct person-list keys. */
  lemma PersonsPageKeyInjective(page1: int, size1: int, page2: int, size2: int)
    requires PersonsPageKey(page1, size1) == PersonsPageKey(page2, size2)
    ensures page1 == page2 && size1 == size2
  {
    var a1, b1, a2, b2 := IntToString(page1), IntToString(size1), IntToString(page2), IntToString(size2);
    assert "persons:page=" + (a1 + (":size=" + b1)) == "persons:page=" + (a2 + (":size=" + b2)) by {
      assert PersonsPageKey(page1, size1) == "persons:page=" + (a1 + (":size=" + b1));
      assert PersonsPageKey(page2, size2) == "persons:page=" + (a2 + (":size=" + b2));
    }
    DropCommonPrefix("persons:page=", a1 + (":size=" + b1), a2 + (":size=" + b2));
    SplitAtSeparator(a1, ":size=" + b1, a2, ":size=" + b2, ':');
    DropCommonPrefix(":size=", b1, b2);
    IntToStringInjective(page1, page2);
    IntToStringInjective(size1, size2);
  }

  /** Distinct page requests get distinct genre-list keys. */
  lemma GenresPageKeyInjective(page1: int, size1: int, page2: int, size2: int)
    requires GenresPageKey(page1, size1) == GenresPageKey(page2, size2)
    ensures page1 == page2 && size1 == size2
  {
    var a1, b1, a2, b2 := IntToString(page1), IntToString(size1), IntToString(page2), IntToString(size2);
    assert "genres:page=" + (a1 + (":size=" + b1)) == "genres:page=" + (a2 + (":size=" + b2)) by {
      assert GenresPageKey(page1, size1) == "genres:page=" + (a1 + (":size=" + b1));
      assert GenresPageKey(page2, size2) == "genres:page=" + (a2 + (":size=" + b2));
    }
    DropCommonPrefix("genres:page=", a1 + (":size=" + b1), a2 + (":size=" + b2));
    SplitAtSeparator(a1, ":size=" + b1, a2, ":size=" + b2, ':');
    DropCommonPrefix(":size=", b1, b2);
    IntToStringInjective(page1, page2);
    IntToStringInjective(size1, size2);
  }

  /** Distinct (page, size, sort) requests get distinct film-list keys, whatever the sort string holds. */
  lemma FilmsPageKeyInjective(page1: int, size1: int, sort1: string, page2: int, size2: int, sort2: string)
    requires FilmsPageKey(page1, size1, sort1) == FilmsPageKey(page2, size2, sort2)
    ensures page1 == page2 && size1 == size2 && sort1 == sort2
  {
    var a1, b1, a2, b2 := IntToString(page1), IntToString(size1), IntToString(page2), IntToString(size2);
    var t1, t2 := a1 + ":size=" + b1 + ":sort=" + sort1, a2 + ":size=" + b2 + ":sort=" + sort2;
    assert FilmsPageKey(page1, size1, sort1) == "list_films:page=" + t1;
    assert FilmsPageKey(page2, size2, sort2) == "list_films:page=" + t2;
    DropCommonPrefix("list_films:page=", t1, t2);
    FilmsPageTailInjective(a1, b1, sort1, a2, b2, sort2);
    IntToStringInjective(page1, page2);
    IntToStringInjective(size1, size2);
  }

  /** The part of a film-list key after its prefix splits back into page, size and sort. */
  lemma FilmsPageTailInjective(a1: string, b1: string, sort1: string, a2: string, b2: string, sort2: string)
    requires ':' !in a1 && ':' !in b1 && ':' !in a2 && ':' !in b2
    requires a1 + ":size=" + b1 + ":sort=" + sort1 == a2 + ":size=" + b2 + ":sort=" + sort2
    ensures a1 == a2 && b1 == b2 && sort1 == sort2
  {
    var r1, r2 := ":sort=" + sort1, ":sort=" + sort2;
    assert a1 + ":size=" + b1 + ":sort=" + sort1 == a1 + (":size=" + (b1 + r1));
    assert a2 + ":size=" + b2 + ":sort=" + sort2 == a2 + (":size=" + (b2 + r2));
    SplitAtSeparator(a1, ":size=" + (b1 + r1), a2, ":size=" + (b2 + r2), ':');
    DropCommonPrefix(":size=", b1 + r1, b2 + r2);
    SplitAtSeparator(b1, r1, b2, r2, ':');
    DropCommonPrefix(":sort=", sort1, sort2);
  }

  /** Distinct (query, size) requests get distinct film-search keys, even when the query contains `:`. */
  lemma FilmSearchKeyInjective(query1: string, size1: int, query2: string, size2: int)
    requires FilmSearchKey(query1, size1) == FilmSearchKey(query2, size2)
    ensures query1 == query2 && size1 == size2
  {
    var b1, b2 := IntToString(size1), IntToString(size2);
    assert "search_films:" + (query1 + [':'] + b1) == "search_films:" + (query2 + [':'] + b2) by {
      assert FilmSearchKey(query1, size1) == "search_films:" + (query1 + [':'] + b1);
      assert FilmSearchKey(query2, size2) == "search_films:" + (query2 + [':'] + b2);
    }
    DropCommonPrefix("search_films:", query1 + [':'] + b1, query2 + [':'] + b2);
    SplitAtLastSeparator(query1, b1, query2, b2, ':');
    IntToStringInjective(size1, size2);
  }

  /** Lookups and searches keyed on one string give distinct keys for distinct strings. */
  lemma PersonKeyInjective(id1: string, id2: string)
    requires PersonKey(id1) == PersonKey(id2)
    ensures id1 == id2
  {
    DropCommonPrefix("person:", id1, id2);
  }

  lemma FilmKeyInjective(id1: string, id2: string)
    requires FilmKey(id1) == FilmKey(id2)
    ensures id1 == id2
  {
    DropCommonPrefix("film:", id1, id2);
  }

  lemma PersonSearchKeyInjective(query1: string, query2: string)
    requires PersonSearchKey(query1) == PersonSearchKey(query2)
    ensures query1 == query2
  {
    DropCommonPrefix("search_persons:", query1, query2);
  }

  lemma GenreSearchKeyInjective(query1: string, query2: string)
    requires GenreSearchKey(query1) == GenreSearchKey(query2)
    ensures query1 == query2
  {
    DropCommonPrefix("search_genres:", query1, query2);
  }

  /** The payload shape each family's writer stores; a cache hit parses exactly that shape. */
  predicate Fits(f: Family, p: Payload) {
    match f
    case PersonsPage => p.NameMap?
    case PersonById => p.PersonJson?
    case PersonSearch => p.PersonEntries?
    case FilmsPage => p.FilmShortList?
    case FilmSearch => p.FilmShortList?
    case FilmById => p.FilmJson?
    case GenresPage => p.NameMap?
    case GenreSearch => p.GenreList?
    case GenresDump => true
    case Foreign => true
  }

  /** Every entry holds the shape its key's family stores: the state a cache is in when
      only these services have written to it. */
  predicate WellShaped(c: Store) {
    forall k :: k in c ==> Fits(FamilyOf(k), c[k].payload)
  }

  /** A write in a key's own shape keeps the cache well shaped. */
  lemma WriteKeepsShape(c: Store, key: string, e: Entry)
    requires WellShaped(c) && Fits(FamilyOf(key), e.payload)
    ensures WellShaped(c[key := e])
  {
  }
}

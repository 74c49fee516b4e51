/** `PersonService`: the person list, the person lookup and the person search. A person
    is not a document of its own but a record in a film's `actors`, `directors` or
    `writers` list, so each method reads film documents and gathers persons from them. */
module Persons {
  import opened Common
  import opened Strings
  import opened Documents
  import opened OrderedMaps
  import opened Paging
  import opened Cache

  /** The role lists, in the order every method scans them. */
  const PersonRoles: seq<string> := ["actors", "directors", "writers"]

  /** The (uuid, full name) writes the person-list scroll loop makes into its dict for one
      document, role list by role list. */
  function RoleWrites(d: Doc, roles: seq<string>): seq<(string, string)> {
    if |roles| == 0 then [] else Pairs(Field(d, roles[0])) + RoleWrites(d, roles[1..])
  }

  /** All writes of the scroll loop, document by document. */
  function PersonWrites(docs: seq<Doc>): seq<(string, string)> {
    if |docs| == 0 then [] else RoleWrites(docs[0], PersonRoles) + PersonWrites(docs[1..])
  }

  /** Document `d` names a person `uuid` called `name` in one of the role lists `roles`. */
  predicate NamedIn(d: Doc, roles: seq<string>, uuid: string, name: string) {
    exists r :: r in roles && Record(uuid, name) in Field(d, r)
  }

  lemma {:induction false} RoleWritesFrom(d: Doc, roles: seq<string>, w: (string, string))
    ensures w in RoleWrites(d, roles) <==> NamedIn(d, roles, w.0, w.1)
  {
    if |roles| > 0 {
      RoleWritesFrom(d, roles[1..], w);
      var recs := Field(d, roles[0]);
      assert w in Pairs(recs) <==> Record(w.0, w.1) in recs by {
        if w in Pairs(recs) {
          var i :| 0 <= i < |recs| && Pairs(recs)[i] == w;
          assert recs[i] == Record(w.0, w.1);
        }
        if Record(w.0, w.1) in recs {
          var i :| 0 <= i < |recs| && recs[i] == Record(w.0, w.1);
          assert Pairs(recs)[i] == w;
        }
      }
      if NamedIn(d, roles, w.0, w.1) {
        var r :| r in roles && Record(w.0, w.1) in Field(d, r);
        if r != roles[0] {
          assert r in roles[1..];
        }
      }
    }
  }

  /** Exactly the (uuid, full_name) pairs the documents name under some role are written. */
  lemma {:induction false} PersonWritesFrom(docs: seq<Doc>, w: (string, string))
    ensures w in PersonWrites(docs) <==> exists i :: 0 <= i < |docs| && NamedIn(docs[i], PersonRoles, w.0, w.1)
  {
    if |docs| > 0 {
      PersonWritesFrom(docs[1..], w);
      RoleWritesFrom(docs[0], PersonRoles, w);
      if exists i :: 0 <= i < |docs| && NamedIn(docs[i], PersonRoles, w.0, w.1) {
        var i :| 0 <= i < |docs| && NamedIn(docs[i], PersonRoles, w.0, w.1);
        if i > 0 {
          assert docs[1..][i - 1] == docs[i];
        }
      }
      if exists i :: 0 <= i < |docs| - 1 && NamedIn(docs[1..][i], PersonRoles, w.0, w.1) {
        var i :| 0 <= i < |docs| - 1 && NamedIn(docs[1..][i], PersonRoles, w.0, w.1);
        assert docs[i + 1] == docs[1..][i];
      }
    }
  }

  /** Persons rebuilt from (uuid, full_name) pairs: no role, no films. */
  function NamesToPersons(m: seq<(string, string)>): (ps: seq<Person>)
    ensures |ps| == |m|
    ensures forall i :: 0 <= i < |m| ==> ps[i] == Person(m[i].0, m[i].1, None, [])
  {
    seq(|m|, i requires 0 <= i < |m| => Person(m[i].0, m[i].1, None, []))
  }

  function PersonUuids(ps: seq<Person>): seq<string> {
    seq(|ps|, i requires 0 <= i < |ps| => ps[i].uuid)
  }

  /** `PersonService.list_persons`; `batches` are the scroll's answers: the first search
      and each `scroll` call after it. */
  function ListPersons(cache: Store, ttl: int, size: int, page: int, batches: seq<seq<Doc>>): (r: Reply<seq<Person>>)
    ensures var key := PersonsPageKey(page, size);
      && (key in cache ==> r.cache == cache && (r.result.Err? <==> !cache[key].payload.NameMap?))
      && (key !in cache ==>
            && r.result.Ok?
            && r.cache.Keys == cache.Keys + {key}
            && (forall k :: k in cache ==> r.cache[k] == cache[k])
            && r.cache[key].ttl == ttl
            && (0 <= size ==> |r.result.value| <= size))
    ensures r.result.Ok? ==> Distinct(PersonUuids(r.result.value))
  {
    var key := PersonsPageKey(page, size);
    if key in cache then
      match cache[key].payload
      case NameMap(entries) =>
        var d := Collect(entries);
        assert PersonUuids(NamesToPersons(d)) == Keys(d);
        Reply(Ok(NamesToPersons(d)), cache)
      case _ => Reply(Err(UnreadablePayload(key)), cache)
    else
      var all := Collect(PersonWrites(Scrolled(batches)));
      var limited := PagedDict(all, page, size);
      PagedDictIsPage(all, page, size);
      assert 0 <= size ==> |limited| <= size by {
        if 0 <= size { PageBound(all, page, size); }
      }
      assert PersonUuids(NamesToPersons(limited)) == Keys(limited);
      Reply(Ok(NamesToPersons(limited)), cache[key := Entry(NameMap(limited), ttl)])
  }

  /** The aggregation behind the person list: every uuid the scrolled documents name
      appears once, in the order of its first appearance (document by document, then
      actors, directors, writers), with the full name written for it last. */
  lemma ListPersonsAggregation(docs: seq<Doc>)
    ensures var ws, all := PersonWrites(docs), Collect(PersonWrites(docs));
      && Distinct(Keys(all))
      && (forall i, u, n :: 0 <= i < |docs| && NamedIn(docs[i], PersonRoles, u, n) ==> u in Keys(all))
      && (forall i :: 0 <= i < |all| ==>
            exists j :: 0 <= j < |docs| && NamedIn(docs[j], PersonRoles, all[i].0, all[i].1))
      && (forall u :: u in Keys(ws) ==> Find(all, u) == Some(LastValue(ws, u)))
      && (forall i, j :: 0 <= i < j < |all| ==> FirstIndex(ws, all[i].0) < FirstIndex(ws, all[j].0))
  {
    var ws, all := PersonWrites(docs), Collect(PersonWrites(docs));
    CollectCharacterised(ws);
    forall i, u, n | 0 <= i < |docs| && NamedIn(docs[i], PersonRoles, u, n)
      ensures u in Keys(all)
    {
      PersonWritesFrom(docs, (u, n));
      var k :| 0 <= k < |ws| && ws[k] == (u, n);
      assert Keys(ws)[k] == u;
    }
    forall i | 0 <= i < |all|
      ensures exists j :: 0 <= j < |docs| && NamedIn(docs[j], PersonRoles, all[i].0, all[i].1)
    {
      CollectValuesFrom(ws, i);
      PersonWritesFrom(docs, all[i]);
    }
  }

  /** One page of a dict of names, as persons. */
  lemma {:induction false} NamesPage(all: seq<(string, string)>, page: int, size: int)
    requires Distinct(Keys(all))
    requires 1 <= page && 0 <= size
    ensures var start, ps := Offset(page, size), NamesToPersons(PagedDict(all, page, size));
      && 0 <= start
      && |ps| == (if start >= |all| then 0 else if |all| - start < size then |all| - start else size)
      && forall i :: 0 <= i < |ps| ==> ps[i] == Person(all[start + i].0, all[start + i].1, None, [])
  {
    PagedDictIsPage(all, page, size);
    PageContents(all, page, size);
  }

  /** On a miss with page 1 or later, the list is the page's slice of the aggregated
      persons: from `(page - 1) * size` on, at most `size` of them, empty past the end. */
  lemma {:induction false} ListPersonsPage(cache: Store, ttl: int, size: int, page: int, batches: seq<seq<Doc>>)
    requires PersonsPageKey(page, size) !in cache
    requires 1 <= page && 0 <= size
    ensures var all, ps := Collect(PersonWrites(Scrolled(batches))), ListPersons(cache, ttl, size, page, batches).result.value;
      var start := Offset(page, size);
      && 0 <= start
      && |ps| == (if start >= |all| then 0 else if |all| - start < size then |all| - start else size)
      && forall i :: 0 <= i < |ps| ==> ps[i] == Person(all[start + i].0, all[start + i].1, None, [])
  {
    var all := Collect(PersonWrites(Scrolled(batches)));
    assert ListPersons(cache, ttl, size, page, batches).result.value == NamesToPersons(PagedDict(all, page, size));
    NamesPage(all, page, size);
  }

  /** A hit on a key a miss filled returns the same (uuid, full_name) sequence the miss
      returned, and changes nothing, whatever the scroll would read now. */
  lemma ListPersonsRoundTrip(cache: Store, ttl: int, ttl2: int, size: int, page: int,
                             batches: seq<seq<Doc>>, batches2: seq<seq<Doc>>)
    requires PersonsPageKey(page, size) !in cache
    ensures var miss := ListPersons(cache, ttl, size, page, batches);
      ListPersons(miss.cache, ttl2, size, page, batches2) == miss
  {
    var all := Collect(PersonWrites(Scrolled(batches)));
    var limited := PagedDict(all, page, size);
    CollectDistinct(limited);
  }

  /** A person-list miss leaves every other page and page size as it was. */
  lemma ListPersonsLeavesOtherRequests(cache: Store, ttl: int, size: int, page: int, batches: seq<seq<Doc>>,
                                       size2: int, page2: int)
    requires (page2, size2) != (page, size)
    ensures var after := ListPersons(cache, ttl, size, page, batches).cache;
      var key2 := PersonsPageKey(page2, size2);
      (key2 in after <==> key2 in cache) && (key2 in cache ==> after[key2] == cache[key2])
  {
    if PersonsPageKey(page2, size2) == PersonsPageKey(page, size) {
      PersonsPageKeyInjective(page2, size2, page, size);
    }
  }

  predicate Lists(d: Doc, role: string, id: string) {
    FindRecord(Field(d, role), id).Some?
  }

  /** The position of the first of `roles` that lists `id`, or `|roles|` when none does. */
  function FirstListing(d: Doc, id: string, roles: seq<string>): (i: nat)
    ensures i <= |roles|
    ensures forall j :: 0 <= j < i ==> !Lists(d, roles[j], id)
    ensures i < |roles| ==> Lists(d, roles[i], id)
  {
    if |roles| == 0 then 0
    else if Lists(d, roles[0], id) then 0
    else
      var i := FirstListing(d, id, roles[1..]);
      assert forall j :: 0 < j < i + 1 ==> roles[j] == roles[1..][j - 1];
      i + 1
  }

  /** The person `id` as the first of `roles` that lists it describes it: the first record
      with that uuid in that list, with the list's name, minus its `s`, as the role. */
  function FindInRoles(d: Doc, id: string, roles: seq<string>): (r: Option<Person>)
    ensures r.None? <==> forall i :: 0 <= i < |roles| ==> !Lists(d, roles[i], id)
    ensures r.Some? ==>
      var i := FirstListing(d, id, roles);
      && i < |roles|
      && var rec := FindRecord(Field(d, roles[i]), id).value;
         r.value == Person(rec.uuid, rec.name, Some(Singular(roles[i])), [])
  {
    var i := FirstListing(d, id, roles);
    if i == |roles| then None
    else
      var rec := FindRecord(Field(d, roles[i]), id).value;
      Some(Person(rec.uuid, rec.name, Some(Singular(roles[i])), []))
  }

  /** `PersonService.get_person_by_id`; `hits` are the engine's answer to the size-1
      search for a film naming `personId` under any role, `filmHits` its answer to the
      search for the films naming `personId`. */
  function GetPersonById(cache: Store, ttl: int, personId: string, hits: seq<Doc>, filmHits: seq<Doc>): (r: Reply<Option<Person>>)
    ensures PersonKey(personId) in cache ==>
      r.cache == cache && (r.result.Err? <==> !cache[PersonKey(personId)].payload.PersonJson?)
    ensures PersonKey(personId) !in cache && (|hits| == 0 || FindInRoles(hits[0], personId, PersonRoles).None?) ==>
      r == Reply(Ok(None), cache)
    ensures PersonKey(personId) !in cache && |hits| > 0 && FindInRoles(hits[0], personId, PersonRoles).Some? ==>
      (r.result.Err? <==> exists j :: 0 <= j < |filmHits| && filmHits[j].title.None?)
    ensures var key := PersonKey(personId);
      key !in cache && r.result.Ok? && r.result.value.Some? ==>
        && r.cache.Keys == cache.Keys + {key}
        && (forall k :: k in cache ==> r.cache[k] == cache[k])
        && r.cache[key] == Entry(PersonJson(r.result.value.value), ttl)
    ensures r.result.Err? ==> r.cache == cache
  {
    var key := PersonKey(personId);
    if key in cache then
      match cache[key].payload
      case PersonJson(p) => Reply(Ok(Some(p)), cache)
      case _ => Reply(Err(UnreadablePayload(key)), cache)
    else if |hits| == 0 then Reply(Ok(None), cache)
    else
      match FindInRoles(hits[0], personId, PersonRoles)
      case None => Reply(Ok(None), cache)
      case Some(p) => WithFilmsStored(cache, ttl, key, p, filmHits)
  }

  /** The miss branch once the person is found: attach its films and store it under `key`,
      or fail, storing nothing, when a film hit has no title. */
  function WithFilmsStored(cache: Store, ttl: int, key: string, p: Person, filmHits: seq<Doc>): (r: Reply<Option<Person>>)
    ensures r.result.Err? <==> exists j :: 0 <= j < |filmHits| && filmHits[j].title.None?
    ensures r.result.Err? ==> r.cache == cache
    ensures r.result.Ok? ==>
      && r.result.value == Some(p.(films := ToFilmShorts(filmHits).value))
      && r.cache == cache[key := Entry(PersonJson(r.result.value.value), ttl)]
  {
    match ToFilmShorts(filmHits)
    case Err(e) => Reply(Err(e), cache)
    case Ok(films) =>
      var person := p.(films := films);
      Reply(Ok(Some(person)), cache[key := Entry(PersonJson(person), ttl)])
  }

  /** A found person is the first record with the uuid asked for in the first of actors,
      directors, writers that lists it, with that list's role, and with one short film per
      film hit, in order, each carrying the hit's uuid, title and rating. */
  lemma GetPersonByIdFound(cache: Store, ttl: int, personId: string, hits: seq<Doc>, filmHits: seq<Doc>)
    requires PersonKey(personId) !in cache
    requires var r := GetPersonById(cache, ttl, personId, hits, filmHits); r.result.Ok? && r.result.value.Some?
    ensures var p := GetPersonById(cache, ttl, personId, hits, filmHits).result.value.value;
      var i := FirstListing(hits[0], personId, PersonRoles);
      && p.uuid == personId
      && |p.films| == |filmHits|
      && i < |PersonRoles|
      && p.role == Some(Singular(PersonRoles[i]))
      && p.fullName == FindRecord(Field(hits[0], PersonRoles[i]), personId).value.name
      && (forall j :: 0 <= j < |filmHits| ==>
            p.films[j] == FilmShort(filmHits[j].uuid, filmHits[j].title.value, filmHits[j].imdbRating))
      && p == FindInRoles(hits[0], personId, PersonRoles).value.(films := ToFilmShorts(filmHits).value)
  {
  }

  /** After a successful lookup a second lookup is a hit returning the same person,
      films included. */
  lemma GetPersonByIdRoundTrip(cache: Store, ttl: int, ttl2: int, personId: string,
                               hits: seq<Doc>, filmHits: seq<Doc>, hits2: seq<Doc>, filmHits2: seq<Doc>)
    requires PersonKey(personId) !in cache
    requires GetPersonById(cache, ttl, personId, hits, filmHits).result.Ok?
    ensures var miss := GetPersonById(cache, ttl, personId, hits, filmHits);
      miss.result.value.Some? ==> GetPersonById(miss.cache, ttl2, personId, hits2, filmHits2) == miss
  {
  }

  /** Every (record, role name) of the documents, document by document, then role list by
      role list, then record by record. */
  function Candidates(docs: seq<Doc>): seq<(Record, string)> {
    if |docs| == 0 then [] else RoleCandidates(docs[0], PersonRoles) + Candidates(docs[1..])
  }

  function RoleCandidates(d: Doc, roles: seq<string>): seq<(Record, string)> {
    if |roles| == 0 then []
    else
      var recs := Field(d, roles[0]);
      seq(|recs|, i requires 0 <= i < |recs| => (recs[i], roles[0])) + RoleCandidates(d, roles[1..])
  }

  function CandidateUuids(cs: seq<(Record, string)>): seq<string> {
    seq(|cs|, i requires 0 <= i < |cs| => cs[i].0.uuid)
  }

  /** Position `j` of `cands` is one the selection loop takes: the candidate's full name
      is the query, its uuid is not in `seen`, and no earlier candidate with that uuid had
      that name. So a person is taken once, at the first place the query names them. */
  predicate Taken(cands: seq<(Record, string)>, query: string, seen: set<string>, j: int)
    requires 0 <= j < |cands|
  {
    && cands[j].0.name == query && cands[j].0.uuid !in seen
    && forall k :: 0 <= k < j && cands[k].0.uuid == cands[j].0.uuid ==> cands[k].0.name != query
  }

  /** Past the first candidate, a position is taken exactly when it is taken among the
      rest, with the first candidate's uuid marked seen when the first was taken. */
  lemma TakenShift(cands: seq<(Record, string)>, query: string, seen: set<string>, j: int)
    requires 0 < j < |cands|
    ensures Taken(cands, query, seen, j) <==> Taken(cands[1..], query, SeenAfterFirst(cands, query, seen), j - 1)
  {
    var tail := cands[1..];
    assert forall k :: 0 <= k < |tail| ==> tail[k] == cands[k + 1];
  }

  /** The positions of `cands` the selection loop takes, in the order it takes them. */
  function SelectIndices(cands: seq<(Record, string)>, query: string, seen: set<string>): seq<nat> {
    if |cands| == 0 then []
    else
      var c := cands[0];
      var take := c.0.uuid !in seen && c.0.name == query;
      var rest := SelectIndices(cands[1..], query, if take then seen + {c.0.uuid} else seen);
      if take then [0] + Shift(rest) else Shift(rest)
  }

  /** Every position moved up by one. */
  function Shift(xs: seq<nat>): (ys: seq<nat>)
    ensures |ys| == |xs| && forall i :: 0 <= i < |xs| ==> ys[i] == xs[i] + 1
  {
    seq(|xs|, i requires 0 <= i < |xs| => xs[i] + 1)
  }

  predicate Increasing(xs: seq<nat>) {
    forall i, i' :: 0 <= i < i' < |xs| ==> xs[i] < xs[i']
  }

  /** Moving increasing positions up by one keeps them increasing, and leaves room for 0 in front. */
  lemma ShiftIncreasing(xs: seq<nat>)
    requires Increasing(xs)
    ensures Increasing(Shift(xs)) && Increasing([0] + Shift(xs))
  {
    var ys := [0] + Shift(xs);
    forall i, i' | 0 <= i < i' < |ys|
      ensures ys[i] < ys[i']
    {
      assert ys[i'] == xs[i' - 1] + 1;
      if 0 < i {
        assert ys[i] == xs[i - 1] + 1;
      }
    }
  }

  /** The seen set the selection loop carries past the first candidate. */
  function SeenAfterFirst(cands: seq<(Record, string)>, query: string, seen: set<string>): set<string>
    requires 0 < |cands|
  {
    if cands[0].0.uuid !in seen && cands[0].0.name == query then seen + {cands[0].0.uuid} else seen
  }

  /** Past the first candidate, the loop's positions are those it takes among the rest,
      each moved up by one. */
  lemma SelectIndicesStep(cands: seq<(Record, string)>, query: string, seen: set<string>)
    requires 0 < |cands|
    ensures var idx, rest := SelectIndices(cands, query, seen), SelectIndices(cands[1..], query, SeenAfterFirst(cands, query, seen));
      var off := if cands[0].0.uuid !in seen && cands[0].0.name == query then 1 else 0;
      && |idx| == |rest| + off
      && (off == 1 ==> idx[0] == 0)
      && forall i :: off <= i < |idx| ==> idx[i] == rest[i - off] + 1
  {
  }

  /** Every position the selection loop takes is a taken one. */
  lemma {:induction false} SelectIndicesTaken(cands: seq<(Record, string)>, query: string, seen: set<string>)
    ensures forall i :: 0 <= i < |SelectIndices(cands, query, seen)| ==>
      SelectIndices(cands, query, seen)[i] < |cands| && Taken(cands, query, seen, SelectIndices(cands, query, seen)[i])
  {
    if |cands| > 0 {
      var idx := SelectIndices(cands, query, seen);
      var off := if cands[0].0.uuid !in seen && cands[0].0.name == query then 1 else 0;
      SelectIndicesStep(cands, query, seen);
      SelectIndicesTaken(cands[1..], query, SeenAfterFirst(cands, query, seen));
      forall i | 0 <= i < |idx|
        ensures idx[i] < |cands| && Taken(cands, query, seen, idx[i])
      {
        if off <= i {
          TakenShift(cands, query, seen, idx[i]);
        }
      }
    }
  }

  /** The selection loop takes positions in increasing order. */
  lemma {:induction false} SelectIndicesIncreasing(cands: seq<(Record, string)>, query: string, seen: set<string>)
    ensures Increasing(SelectIndices(cands, query, seen))
  {
    if |cands| > 0 {
      var rest := SelectIndices(cands[1..], query, SeenAfterFirst(cands, query, seen));
      SelectIndicesIncreasing(cands[1..], query, SeenAfterFirst(cands, query, seen));
      ShiftIncreasing(rest);
      assert SelectIndices(cands, query, seen) == if cands[0].0.uuid !in seen && cands[0].0.name == query
        then [0] + Shift(rest) else Shift(rest);
    }
  }

  /** The selection loop takes every taken position. */
  lemma {:induction false} SelectIndicesComplete(cands: seq<(Record, string)>, query: string, seen: set<string>)
    ensures forall j :: 0 <= j < |cands| && Taken(cands, query, seen, j) ==> j in SelectIndices(cands, query, seen)
  {
    if |cands| > 0 {
      var seen' := SeenAfterFirst(cands, query, seen);
      var rest := SelectIndices(cands[1..], query, seen');
      var idx := SelectIndices(cands, query, seen);
      var take := cands[0].0.uuid !in seen && cands[0].0.name == query;
      assert idx == if take then [0] + Shift(rest) else Shift(rest);
      SelectIndicesComplete(cands[1..], query, seen');
      forall j | 0 <= j < |cands| && Taken(cands, query, seen, j)
        ensures j in idx
      {
        if j == 0 {
          assert take && idx[0] == 0;
        } else {
          TakenShift(cands, query, seen, j);
          ShiftMember(rest, j - 1);
        }
      }
    }
  }

  lemma ShiftMember(xs: seq<nat>, x: nat)
    requires x in xs
    ensures x + 1 in Shift(xs) && x + 1 in [0] + Shift(xs)
  {
    var i :| 0 <= i < |xs| && xs[i] == x;
    assert Shift(xs)[i] == x + 1;
    assert ([0] + Shift(xs))[i + 1] == x + 1;
  }

  /** The first position at or before `j` whose candidate has uuid `u` and is named as the query. */
  lemma EarliestNamed(cands: seq<(Record, string)>, query: string, u: string, j: int) returns (k: int)
    requires 0 <= j < |cands| && cands[j].0.uuid == u && cands[j].0.name == query
    ensures 0 <= k <= j && cands[k].0.uuid == u && cands[k].0.name == query
    ensures forall k' :: 0 <= k' < k && cands[k'].0.uuid == u ==> cands[k'].0.name != query
    decreases j
  {
    if k' :| 0 <= k' < j && cands[k'].0.uuid == u && cands[k'].0.name == query {
      k := EarliestNamed(cands, query, u, k');
    } else {
      k := j;
    }
  }

  /** The selection loop of the person search: the candidates at the taken positions, in
      order. So each selected person is named exactly as the query, appears once, and is
      the first candidate the query names with that uuid, which fixes its role. */
  function Select(cands: seq<(Record, string)>, query: string, seen: set<string>): (sel: seq<(Record, string)>)
    ensures var idx := SelectIndices(cands, query, seen);
      |sel| == |idx| && forall i :: 0 <= i < |sel| ==> idx[i] < |cands| && sel[i] == cands[idx[i]]
    ensures Distinct(CandidateUuids(sel))
    ensures forall i :: 0 <= i < |sel| ==> sel[i].0.uuid !in seen && sel[i].0.name == query && sel[i] in cands
    ensures forall c :: c in cands && c.0.name == query ==> c.0.uuid in seen || c.0.uuid in CandidateUuids(sel)
  {
    var idx := SelectIndices(cands, query, seen);
    SelectIndicesTaken(cands, query, seen);
    SelectIndicesIncreasing(cands, query, seen);
    SelectIndicesComplete(cands, query, seen);
    assert forall i :: 0 <= i < |idx| ==> idx[i] < |cands|;
    var sel := seq(|idx|, i requires 0 <= i < |idx| => cands[idx[i]]);
    assert Distinct(CandidateUuids(sel)) by {
      forall i, i' | 0 <= i < i' < |sel|
        ensures CandidateUuids(sel)[i] != CandidateUuids(sel)[i']
      {
        assert idx[i] < idx[i'];
        assert Taken(cands, query, seen, idx[i']);
      }
    }
    assert forall c :: c in cands && c.0.name == query ==> c.0.uuid in seen || c.0.uuid in CandidateUuids(sel) by {
      forall c | c in cands && c.0.name == query && c.0.uuid !in seen
        ensures c.0.uuid in CandidateUuids(sel)
      {
        var j0 :| 0 <= j0 < |cands| && cands[j0] == c;
        var k := EarliestNamed(cands, query, c.0.uuid, j0);
        assert Taken(cands, query, seen, k);
        var i :| 0 <= i < |idx| && idx[i] == k;
        assert CandidateUuids(sel)[i] == c.0.uuid;
      }
    }
    sel
  }

  /** One selected candidate as a person, with the films the engine finds for its uuid;
      it fails exactly when one of those films has no title. */
  function WithFilms(c: (Record, string), filmHits: seq<Doc>): (r: Result<Person>)
    ensures r.Ok? <==> ToFilmShorts(filmHits).Ok?
    ensures r.Ok? ==> r.value.uuid == c.0.uuid && r.value.fullName == c.0.name
    ensures r.Ok? ==> r.value.role == Some(Singular(c.1)) && r.value.films == ToFilmShorts(filmHits).value
  {
    var films := ToFilmShorts(filmHits);
    if films.Err? then Err(films.error)
    else Ok(Person(c.0.uuid, c.0.name, Some(Singular(c.1)), films.value))
  }

  /** The selected candidates as persons, in order, each with its own films query's
      answer; the first failing films query fails the whole search. */
  function AllWithFilms(sel: seq<(Record, string)>, filmsOf: string -> seq<Doc>): (r: Result<seq<Person>>)
    ensures r.Ok? <==> forall i :: 0 <= i < |sel| ==> ToFilmShorts(filmsOf(sel[i].0.uuid)).Ok?
    ensures r.Ok? ==> |r.value| == |sel|
    ensures r.Ok? ==> forall i :: 0 <= i < |sel| ==>
      && r.value[i].uuid == sel[i].0.uuid && r.value[i].fullName == sel[i].0.name
      && r.value[i].role == Some(Singular(sel[i].1))
      && r.value[i].films == ToFilmShorts(filmsOf(sel[i].0.uuid)).value
  {
    if |sel| == 0 then Ok([])
    else
      var p := WithFilms(sel[0], filmsOf(sel[0].0.uuid));
      if p.Err? then Err(p.error)
      else
        var ps := AllWithFilms(sel[1..], filmsOf);
        assert forall i :: 0 < i < |sel| ==> sel[1..][i - 1] == sel[i];
        if ps.Err? then Err(ps.error)
        else Ok([p.value] + ps.value)
  }

  /** The person-search payload: uuid, full name and role of each person, in order. */
  function Entries(ps: seq<Person>): (es: seq<PersonEntry>)
    ensures |es| == |ps|
  {
    seq(|ps|, i requires 0 <= i < |ps| => PersonEntry(ps[i].uuid, ps[i].fullName, ps[i].role))
  }

  /** Persons rebuilt from the payload: `films` takes its default, `[]`. */
  function FromEntries(es: seq<PersonEntry>): (ps: seq<Person>)
    ensures |ps| == |es|
  {
    seq(|es|, i requires 0 <= i < |es| => Person(es[i].uuid, es[i].fullName, es[i].role, []))
  }

  /** `PersonService.search_persons`; `actorHits`, `directorHits`, `writerHits` are the
      engine's answers to the exact-phrase query on each role list, and `filmsOf(uuid)`
      its answer to the films query for one person. */
  function SearchPersons(cache: Store, ttl: int, query: string,
                         actorHits: seq<Doc>, directorHits: seq<Doc>, writerHits: seq<Doc>,
                         filmsOf: string -> seq<Doc>): (r: Reply<seq<Person>>)
    ensures var key := PersonSearchKey(query);
      && (key in cache ==> r.cache == cache)
      && (key in cache ==>
            (r.result.Err? <==> !cache[key].payload.PersonEntries? && !EmptyCollection(cache[key].payload)))
      && (key in cache && EmptyCollection(cache[key].payload) ==> r.result == Ok([]))
      && (key !in cache && r.result.Ok? ==>
            && Distinct(PersonUuids(r.result.value))
            && (forall p :: p in r.result.value ==> p.fullName == query)
            && r.cache.Keys == cache.Keys + {key}
            && (forall k :: k in cache ==> r.cache[k] == cache[k])
            && r.cache[key] == Entry(PersonEntries(Entries(r.result.value)), ttl))
      && (r.result.Err? ==> r.cache == cache)
  {
    var key := PersonSearchKey(query);
    if key in cache then
      match cache[key].payload
      case PersonEntries(es) => Reply(Ok(FromEntries(es)), cache)
      case _ =>
        if EmptyCollection(cache[key].payload) then Reply(Ok([]), cache)
        else Reply(Err(UnreadablePayload(key)), cache)
    else
      var sel := Select(Candidates(actorHits + directorHits + writerHits), query, {});
      var ps := AllWithFilms(sel, filmsOf);
      if ps.Err? then Reply(Err(ps.error), cache)
      else
        assert PersonUuids(ps.value) == CandidateUuids(sel);
        Reply(Ok(ps.value), cache[key := Entry(PersonEntries(Entries(ps.value)), ttl)])
  }

  /** Every person named exactly `query` in the role lists of the hits is found. */
  lemma {:induction false} SearchPersonsComplete(cache: Store, ttl: int, query: string,
                              actorHits: seq<Doc>, directorHits: seq<Doc>, writerHits: seq<Doc>,
                              filmsOf: string -> seq<Doc>, c: (Record, string))
    requires PersonSearchKey(query) !in cache
    requires c in Candidates(actorHits + directorHits + writerHits) && c.0.name == query
    ensures var r := SearchPersons(cache, ttl, query, actorHits, directorHits, writerHits, filmsOf);
      r.result.Ok? ==> c.0.uuid in PersonUuids(r.result.value)
  {
    var r := SearchPersons(cache, ttl, query, actorHits, directorHits, writerHits, filmsOf);
    if r.result.Ok? {
      var sel := Select(Candidates(actorHits + directorHits + writerHits), query, {});
      assert PersonUuids(r.result.value) == CandidateUuids(sel);
    }
  }

  /** On a miss, the persons are the candidates of the three searches' hits at the taken
      positions, in order: each has the uuid and full name of the first candidate the query
      names with that uuid, the role of that candidate's list, and its own films query's
      short films. The search fails exactly when one of those films queries returns a hit
      without a title. */
  lemma SearchPersonsSound(cache: Store, ttl: int, query: string,
                           actorHits: seq<Doc>, directorHits: seq<Doc>, writerHits: seq<Doc>,
                           filmsOf: string -> seq<Doc>)
    requires PersonSearchKey(query) !in cache
    ensures var cands := Candidates(actorHits + directorHits + writerHits);
      var idx := SelectIndices(cands, query, {});
      forall i :: 0 <= i < |idx| ==> idx[i] < |cands| && Taken(cands, query, {}, idx[i])
    ensures var idx := SelectIndices(Candidates(actorHits + directorHits + writerHits), query, {});
      forall i, i' :: 0 <= i < i' < |idx| ==> idx[i] < idx[i']
    ensures var r := SearchPersons(cache, ttl, query, actorHits, directorHits, writerHits, filmsOf);
      var cands := Candidates(actorHits + directorHits + writerHits);
      var idx := SelectIndices(cands, query, {});
      r.result.Ok? <==> forall i :: 0 <= i < |idx| ==> ToFilmShorts(filmsOf(cands[idx[i]].0.uuid)).Ok?
    ensures var r := SearchPersons(cache, ttl, query, actorHits, directorHits, writerHits, filmsOf);
      var cands := Candidates(actorHits + directorHits + writerHits);
      var idx := SelectIndices(cands, query, {});
      r.result.Ok? ==>
        && |r.result.value| == |idx|
        && forall i :: 0 <= i < |idx| ==>
             && r.result.value[i].uuid == cands[idx[i]].0.uuid
             && r.result.value[i].fullName == cands[idx[i]].0.name
             && r.result.value[i].role == Some(Singular(cands[idx[i]].1))
             && r.result.value[i].films == ToFilmShorts(filmsOf(cands[idx[i]].0.uuid)).value
  {
    var cands := Candidates(actorHits + directorHits + writerHits);
    var idx := SelectIndices(cands, query, {});
    SelectIndicesTaken(cands, query, {});
    SelectIndicesIncreasing(cands, query, {});
    var sel := Select(cands, query, {});
    var ps := AllWithFilms(sel, filmsOf);
    var r := SearchPersons(cache, ttl, query, actorHits, directorHits, writerHits, filmsOf);
    assert r.result.Ok? <==> ps.Ok?;
    assert ps.Ok? ==> r.result.value == ps.value;
    assert forall i :: 0 <= i < |idx| ==> sel[i] == cands[idx[i]];
  }

  /** A hit after a miss agrees with the miss on each person's uuid, full name and role,
      in order, but not on `films`: the payload does not store them, so every person of
      the hit has no films. */
  lemma SearchPersonsRoundTrip(cache: Store, ttl: int, ttl2: int, query: string,
                               actorHits: seq<Doc>, directorHits: seq<Doc>, writerHits: seq<Doc>,
                               filmsOf: string -> seq<Doc>,
                               actorHits2: seq<Doc>, directorHits2: seq<Doc>, writerHits2: seq<Doc>,
                               filmsOf2: string -> seq<Doc>)
    requires PersonSearchKey(query) !in cache
    requires SearchPersons(cache, ttl, query, actorHits, directorHits, writerHits, filmsOf).result.Ok?
    ensures var miss := SearchPersons(cache, ttl, query, actorHits, directorHits, writerHits, filmsOf);
      var hit := SearchPersons(miss.cache, ttl2, query, actorHits2, directorHits2, writerHits2, filmsOf2);
      && hit.cache == miss.cache
      && hit.result.Ok?
      && |hit.result.value| == |miss.result.value|
      && forall i :: 0 <= i < |hit.result.value| ==> hit.result.value[i] == miss.result.value[i].(films := [])
  {
  }

  /** The hit can differ from the miss: one actor named in one film is returned with
      that film on the miss and with no films on the hit. */
  lemma SearchPersonsHitDropsFilms()
    ensures var film := Doc("f1", Some("Film"), None, None, map["actors" := [Record("p1", "Ann")]]);
      var filmsOf := (u: string) => [film];
      var miss := SearchPersons(map[], CacheTtl, "Ann", [film], [], [], filmsOf);
      var hit := SearchPersons(miss.cache, CacheTtl, "Ann", [film], [], [], filmsOf);
      miss.result.Ok? && hit.result.Ok? && miss.result.value != hit.result.value
  {
    var film := Doc("f1", Some("Film"), None, None, map["actors" := [Record("p1", "Ann")]]);
    var filmsOf := (u: string) => [film];
    var miss := SearchPersons(map[], CacheTtl, "Ann", [film], [], [], filmsOf);
    assert Field(film, "actors") == [Record("p1", "Ann")];
    assert Candidates([film] + [] + []) == [(Record("p1", "Ann"), "actors")] by {
      assert [film] + [] + [] == [film];
      assert Field(film, "directors") == [] && Field(film, "writers") == [];
      assert RoleCandidates(film, PersonRoles) == [(Record("p1", "Ann"), "actors")];
    }
    var cand := (Record("p1", "Ann"), "actors");
    var sel := Select(Candidates([film] + [] + []), "Ann", {});
    assert SelectIndices([cand][1..], "Ann", {"p1"}) == [];
    assert SelectIndices([cand], "Ann", {}) == [0];
    assert sel == [cand];
    assert ToFilmShorts([film]).Ok?;
    assert AllWithFilms(sel[1..], filmsOf) == Ok([]);
    var ps := AllWithFilms(sel, filmsOf);
    assert ps.Ok? && |ps.value| == 1 && |ps.value[0].films| == 1;
    assert miss.result == ps;
    var key := PersonSearchKey("Ann");
    assert miss.cache[key].payload == PersonEntries(Entries(ps.value));
    var hit := SearchPersons(miss.cache, CacheTtl, "Ann", [film], [], [], filmsOf);
    assert hit.result == Ok(FromEntries(Entries(ps.value)));
    assert hit.result.value[0].films == [];
  }

  /** Person service calls keep a well-shaped cache well shaped, and on a well-shaped cache
      a hit never fails to parse. */
  lemma ListPersonsKeepsShape(cache: Store, ttl: int, size: int, page: int, batches: seq<seq<Doc>>)
    requires WellShaped(cache)
    ensures WellShaped(ListPersons(cache, ttl, size, page, batches).cache)
    ensures PersonsPageKey(page, size) in cache ==> ListPersons(cache, ttl, size, page, batches).result.Ok?
  {
    PersonsPagePrefix(IntToString(page) + ":size=" + IntToString(size));
    var r := ListPersons(cache, ttl, size, page, batches);
    if r.cache != cache {
      assert r.cache == cache[PersonsPageKey(page, size) := r.cache[PersonsPageKey(page, size)]];
      WriteKeepsShape(cache, PersonsPageKey(page, size), r.cache[PersonsPageKey(page, size)]);
    }
  }

  lemma GetPersonByIdKeepsShape(cache: Store, ttl: int, personId: string, hits: seq<Doc>, filmHits: seq<Doc>)
    requires WellShaped(cache)
    ensures WellShaped(GetPersonById(cache, ttl, personId, hits, filmHits).cache)
    ensures PersonKey(personId) in cache ==> GetPersonById(cache, ttl, personId, hits, filmHits).result.Ok?
  {
    PersonByIdPrefix(personId);
    var r := GetPersonById(cache, ttl, personId, hits, filmHits);
    if r.cache != cache {
      assert r.cache == cache[PersonKey(personId) := r.cache[PersonKey(personId)]];
      WriteKeepsShape(cache, PersonKey(personId), r.cache[PersonKey(personId)]);
    }
  }

  lemma SearchPersonsKeepsShape(cache: Store, ttl: int, query: string,
                                actorHits: seq<Doc>, directorHits: seq<Doc>, writerHits: seq<Doc>,
                                filmsOf: string -> seq<Doc>)
    requires WellShaped(cache)
    ensures WellShaped(SearchPersons(cache, ttl, query, actorHits, directorHits, writerHits, filmsOf).cache)
    ensures PersonSearchKey(query) in cache ==>
      SearchPersons(cache, ttl, query, actorHits, directorHits, writerHits, filmsOf).result.Ok?
  {
    PersonSearchPrefix(query);
    var r := SearchPersons(cache, ttl, query, actorHits, directorHits, writerHits, filmsOf);
    if r.cache != cache {
      assert r.cache == cache[PersonSearchKey(query) := r.cache[PersonSearchKey(query)]];
      WriteKeepsShape(cache, PersonSearchKey(query), r.cache[PersonSearchKey(query)]);
    }
  }
}

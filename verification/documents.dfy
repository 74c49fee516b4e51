/** The entities the services return and the search-engine hits they are built from.
    Identifiers are opaque strings; a rating is carried through unchanged and never
    computed with. */
module Documents {
  import opened Common

  /** A film's `imdb_rating`, kept as the literal the source holds. */
  datatype Rating = Rating(literal: string)

  /** One element of a nested list in a film document: a person `{uuid, full_name}`
      or a genre `{uuid, name}`. */
  datatype Record = Record(uuid: string, name: string)

  /** The `_source` of one film document. `lists` maps a nested-list field name
      (`actors`, `directors`, `writers`, `genres`) to its records; a field missing
      from the map is missing from the document. */
  datatype Doc = Doc(
    uuid: string,
    title: Option<string>,
    description: Option<string>,
    imdbRating: Option<Rating>,
    lists: map<string, seq<Record>>)

  datatype FilmShort = FilmShort(uuid: string, title: string, imdbRating: Option<Rating>)

  datatype Genre = Genre(uuid: string, name: string)

  /** A person; `role` is the role in the context of one response, `films` defaults to `[]`. */
  datatype Person = Person(uuid: string, fullName: string, role: Option<string>, films: seq<FilmShort>)

  datatype Film = Film(
    uuid: string,
    title: Option<string>,
    description: Option<string>,
    imdbRating: Option<Rating>,
    genres: seq<Genre>,
    actors: seq<Person>,
    writers: seq<Person>,
    directors: seq<Person>)

  /** A role-list name without its last character, the plural `s`. */
  function Singular(role: string): string {
    if |role| == 0 then role else role[..|role| - 1]
  }

  lemma SingularOfRoles()
    ensures Singular("actors") == "actor"
    ensures Singular("directors") == "director"
    ensures Singular("writers") == "writer"
  {
  }

  /** The records a document lists under `field`, none when the field is missing. */
  function Field(d: Doc, field: string): seq<Record> {
    if field in d.lists then d.lists[field] else []
  }

  /** The documents the scroll loop reads: the scroll stops at the first empty batch,
      so batches after it are never read. */
  function Scrolled(batches: seq<seq<Doc>>): (docs: seq<Doc>)
    ensures forall d :: d in docs ==> exists b :: 0 <= b < |batches| && d in batches[b]
  {
    if |batches| == 0 || |batches[0]| == 0 then []
    else batches[0] + Scrolled(batches[1..])
  }

  /** Every batch before the first empty one is read in full and in order; when no batch
      is empty, the scroll reads every document of every batch. */
  lemma {:induction false} ScrolledPrefix(batches: seq<seq<Doc>>, k: nat)
    requires k <= |batches|
    requires forall b :: 0 <= b < k ==> |batches[b]| > 0
    ensures Scrolled(batches) == Concat(batches[..k]) + Scrolled(batches[k..])
  {
    if k > 0 {
      ScrolledPrefix(batches[1..], k - 1);
      assert batches[1..][..k - 1] == batches[..k][1..];
      assert batches[1..][k - 1..] == batches[k..];
    }
  }

  lemma ScrolledStops(batches: seq<seq<Doc>>, k: nat)
    requires k < |batches| && |batches[k]| == 0
    requires forall b :: 0 <= b < k ==> |batches[b]| > 0
    ensures Scrolled(batches) == Concat(batches[..k])
  {
    ScrolledPrefix(batches, k);
  }

  function Concat<T>(xss: seq<seq<T>>): seq<T> {
    if |xss| == 0 then [] else xss[0] + Concat(xss[1..])
  }

  /** The short film of one hit: its uuid, its title, which must be present, and its
      rating, which may be absent. */
  function ToFilmShort(d: Doc): (r: Result<FilmShort>)
    ensures r.Ok? <==> d.title.Some?
    ensures r.Ok? ==> r.value == FilmShort(d.uuid, d.title.value, d.imdbRating)
    ensures r.Err? ==> r.error == MissingField("title")
  {
    match d.title
    case Some(t) => Ok(FilmShort(d.uuid, t, d.imdbRating))
    case None => Err(MissingField("title"))
  }

  /** The list comprehension over hits: fails at the first hit without a title,
      otherwise one short film per hit, in hit order. */
  function ToFilmShorts(docs: seq<Doc>): (r: Result<seq<FilmShort>>)
    ensures r.Ok? <==> forall i :: 0 <= i < |docs| ==> docs[i].title.Some?
    ensures r.Ok? ==> |r.value| == |docs|
    ensures r.Ok? ==> forall i :: 0 <= i < |docs| ==>
      r.value[i] == FilmShort(docs[i].uuid, docs[i].title.value, docs[i].imdbRating)
  {
    if |docs| == 0 then Ok([])
    else
      match ToFilmShort(docs[0])
      case Err(e) => Err(e)
      case Ok(f) =>
        match ToFilmShorts(docs[1..])
        case Err(e) => Err(e)
        case Ok(fs) => Ok([f] + fs)
  }

  /** The (uuid, name) pairs of a list of records. */
  function Pairs(recs: seq<Record>): (ws: seq<(string, string)>)
    ensures |ws| == |recs|
    ensures forall i :: 0 <= i < |recs| ==> ws[i] == (recs[i].uuid, recs[i].name)
  {
    seq(|recs|, i requires 0 <= i < |recs| => (recs[i].uuid, recs[i].name))
  }

  /** The first record of `recs` with uuid `id`. */
  function FindRecord(recs: seq<Record>, id: string): (r: Option<Record>)
    ensures r.None? <==> forall j :: 0 <= j < |recs| ==> recs[j].uuid != id
    ensures r.Some? ==> exists j :: (0 <= j < |recs| && recs[j] == r.value && r.value.uuid == id &&
      forall k :: 0 <= k < j ==> recs[k].uuid != id)
  {
    if |recs| == 0 then None
    else if recs[0].uuid == id then Some(recs[0])
    else
      var r := FindRecord(recs[1..], id);
      assert r.Some? ==> exists j :: (0 <= j < |recs| && recs[j] == r.value && r.value.uuid == id &&
        forall k :: 0 <= k < j ==> recs[k].uuid != id) by {
        if r.Some? {
          var j :| 0 <= j < |recs| - 1 && recs[1..][j] == r.value && r.value.uuid == id &&
            forall k :: 0 <= k < j ==> recs[1..][k].uuid != id;
          assert recs[j + 1] == r.value;
          assert forall k :: 0 < k < j + 1 ==> recs[k] == recs[1..][k - 1];
        }
      }
      r
  }
}

/** The incident knowledge base: an append-only table of past incidents in a
    vector store, searched by similarity.

    The store's state is the table, absent until the first incident is
    added.  The embedding model is the `embed` parameter (failing like the
    remote call can), the vector store's own errors when it writes or
    searches are the `db` parameter, and the vector index ranks by the
    `distance` parameter:
    a search returns the `limit` records nearest to the query vector, nearest
    first, records at equal distance in the order they were added.
 */
module Knowledge {
  import opened Wrappers

  type Vector = seq<real>

  datatype Record = Record(
    vector: Vector, alertName: string, diagnosis: string, rootCause: string,
    fix: string, timestamp: string)

  /** `None` until the "incidents" table has been created. */
  datatype Store = Store(table: Option<seq<Record>>)

  type Embedder = string -> Result<Vector, string>

  /** The errors the vector store itself raises: `write(s, rec)` is the
      error of adding `rec` to the table of `s` (creating it when absent),
      `search(s, q)` that of searching the table of `s` for `q`; `None` when
      the operation goes through. */
  datatype Database = Database(
    write: (Store, Record) -> Option<string>,
    search: (Store, Vector) -> Option<string>)

  /** The text embedded for an incident, and for a search. */
  function EmbeddingText(alertName: string, text: string): string {
    alertName + ": " + text
  }

  function RecordCount(s: Store): nat {
    match s.table
    case None => 0
    case Some(rows) => |rows|
  }

  /** True when `after` holds every record of `before` unchanged, in the same
      places, possibly followed by more. */
  predicate Extends(before: Store, after: Store) {
    match before.table
    case None => true
    case Some(rows) => after.table.Some? && |rows| <= |after.table.value| && after.table.value[..|rows|] == rows
  }

  /** `add_incident`: embeds "alert_name: root_cause" and appends one record
      holding the arguments, creating the table on the first add.  When the
      embedding or the write fails the call raises with that error, and the
      store is unchanged. */
  function AddIncident(s: Store, alertName: string, diagnosis: string, rootCause: string, fix: string,
                       embed: Embedder, db: Database, now: string): (r: Result<Store, string>)
    ensures embed(EmbeddingText(alertName, rootCause)).Failure? ==>
      r == Failure(embed(EmbeddingText(alertName, rootCause)).error)
    ensures embed(EmbeddingText(alertName, rootCause)).Success? ==>
      var rec := Record(embed(EmbeddingText(alertName, rootCause)).value, alertName, diagnosis, rootCause, fix, now);
      && (r.Failure? <==> db.write(s, rec).Some?)
      && (r.Failure? ==> r.error == db.write(s, rec).value)
      && (r.Success? ==> r.value.table.Some?)
      && (r.Success? && s.table.None? ==> r.value.table.value == [rec])
      && (r.Success? && s.table.Some? ==> r.value.table.value == s.table.value + [rec])
    ensures r.Success? ==> Extends(s, r.value) && RecordCount(r.value) == RecordCount(s) + 1
  {
    match embed(EmbeddingText(alertName, rootCause))
    case Failure(e) => Failure(e)
    case Success(v) =>
      var rec := Record(v, alertName, diagnosis, rootCause, fix, now);
      match db.write(s, rec)
      case Some(e) => Failure(e)
      case None =>
        match s.table
        case None => Success(Store(Some([rec])))
        case Some(rows) =>
          assert (rows + [rec])[..|rows|] == rows;
          Success(Store(Some(rows + [rec])))
  }

  /** Extending is transitive, so any run of adds only ever appends. */
  lemma ExtendsTransitive(a: Store, b: Store, c: Store)
    requires Extends(a, b) && Extends(b, c)
    ensures Extends(a, c)
  {
    if a.table.Some? {
      var ra, rb, rc := a.table.value, b.table.value, c.table.value;
      assert rc[..|ra|] == rc[..|rb|][..|ra|];
    }
  }

  type Distance = (Vector, Vector) -> real

  /** How far a stored record lies from the query vector. */
  function Far(distance: Distance, q: Vector, rec: Record): real {
    distance(q, rec.vector)
  }

  predicate Ranked(rows: seq<Record>, distance: Distance, q: Vector) {
    forall i, j :: 0 <= i < j < |rows| ==> Far(distance, q, rows[i]) <= Far(distance, q, rows[j])
  }

  /** A record no nearer than every ranked row can follow them. */
  lemma AppendFarthest(rows: seq<Record>, last: Record, distance: Distance, q: Vector)
    requires Ranked(rows, distance, q)
    requires forall i :: 0 <= i < |rows| ==> Far(distance, q, rows[i]) <= Far(distance, q, last)
    ensures Ranked(rows + [last], distance, q)
  {
  }

  /** Every row of a permutation of `rows` plus `x` lies within a bound that
      `x` and all of `rows` lie within. */
  lemma PermutationWithin(front: seq<Record>, rows: seq<Record>, x: Record, distance: Distance, q: Vector, bound: real)
    requires multiset(front) == multiset(rows) + multiset{x}
    requires Far(distance, q, x) <= bound
    requires forall i :: 0 <= i < |rows| ==> Far(distance, q, rows[i]) <= bound
    ensures forall i :: 0 <= i < |front| ==> Far(distance, q, front[i]) <= bound
  {
    forall i | 0 <= i < |front| ensures Far(distance, q, front[i]) <= bound {
      assert front[i] in multiset(front);
      assert front[i] == x || front[i] in rows;
    }
  }

  /** Inserts `x` after every row that is not farther from `q`. */
  function Insert(x: Record, rows: seq<Record>, distance: Distance, q: Vector): (r: seq<Record>)
    requires Ranked(rows, distance, q)
    ensures Ranked(r, distance, q)
    ensures multiset(r) == multiset(rows) + multiset{x}
    decreases |rows|
  {
    if |rows| == 0 then [x]
    else if Far(distance, q, x) < Far(distance, q, rows[|rows| - 1]) then
      var last := rows[|rows| - 1];
      var init := rows[..|rows| - 1];
      assert rows == init + [last];
      var front := Insert(x, init, distance, q);
      PermutationWithin(front, init, x, distance, q, Far(distance, q, last));
      AppendFarthest(front, last, distance, q);
      front + [last]
    else
      AppendFarthest(rows, x, distance, q);
      rows + [x]
  }

  /** A stable insertion sort by distance from `q`: the same records,
      nearest first. */
  function Rank(rows: seq<Record>, distance: Distance, q: Vector): (r: seq<Record>)
    ensures Ranked(r, distance, q)
    ensures multiset(r) == multiset(rows)
    decreases |rows|
  {
    if |rows| == 0 then []
    else
      var init := rows[..|rows| - 1];
      assert rows == init + [rows[|rows| - 1]];
      Insert(rows[|rows| - 1], Rank(init, distance, q), distance, q)
  }

  /** In a ranked sequence, a row past the first `n` is not nearer than any
      of them. */
  lemma PastPrefixNotNearer(ranked: seq<Record>, distance: Distance, q: Vector, n: nat, rec: Record, i: nat)
    requires Ranked(ranked, distance, q) && n <= |ranked|
    requires rec in ranked && rec !in ranked[..n] && i < n
    ensures Far(distance, q, ranked[i]) <= Far(distance, q, rec)
  {
    var k :| 0 <= k < |ranked| && ranked[k] == rec;
    assert k >= n;
  }

  /** The first `n` rows of a ranking are ranked. */
  lemma RankedPrefix(ranked: seq<Record>, distance: Distance, q: Vector, n: nat)
    requires Ranked(ranked, distance, q) && n <= |ranked|
    ensures Ranked(ranked[..n], distance, q)
  {
    forall i, j | 0 <= i < j < n ensures Far(distance, q, ranked[..n][i]) <= Far(distance, q, ranked[..n][j]) {
      assert ranked[..n][i] == ranked[i] && ranked[..n][j] == ranked[j];
    }
  }

  /** The first `n` rows of a ranking of `rows` are some of `rows`. */
  lemma PrefixWithin(ranked: seq<Record>, rows: seq<Record>, n: nat)
    requires multiset(ranked) == multiset(rows) && n <= |ranked|
    ensures multiset(ranked[..n]) <= multiset(rows)
  {
    assert ranked == ranked[..n] + ranked[n..];
  }

  /** A row of `rows` left out of the first `n` of its ranking is no nearer
      than any row kept. */
  lemma PrefixNearest(ranked: seq<Record>, rows: seq<Record>, distance: Distance, q: Vector, n: nat)
    requires Ranked(ranked, distance, q) && multiset(ranked) == multiset(rows) && n <= |ranked|
    ensures forall rec, i :: rec in rows && rec !in ranked[..n] && 0 <= i < n ==>
      Far(distance, q, ranked[..n][i]) <= Far(distance, q, rec)
  {
    forall rec, i | rec in rows && rec !in ranked[..n] && 0 <= i < n
      ensures Far(distance, q, ranked[..n][i]) <= Far(distance, q, rec)
    {
      assert rec in multiset(rows);
      PastPrefixNotNearer(ranked, distance, q, n, rec, i);
    }
  }

  /** The `limit` rows nearest to `q`, nearest first. */
  function Nearest(rows: seq<Record>, distance: Distance, q: Vector, limit: nat): (r: seq<Record>)
    ensures |r| == (if limit <= |rows| then limit else |rows|)
    ensures multiset(r) <= multiset(rows)
    ensures Ranked(r, distance, q)
    ensures forall rec, i :: rec in rows && rec !in r && 0 <= i < |r| ==> Far(distance, q, r[i]) <= Far(distance, q, rec)
  {
    var ranked := Rank(rows, distance, q);
    assert |ranked| == |rows| by {
      assert |multiset(ranked)| == |multiset(rows)|;
    }
    var n := if limit <= |ranked| then limit else |ranked|;
    RankedPrefix(ranked, distance, q, n);
    PrefixWithin(ranked, rows, n);
    PrefixNearest(ranked, rows, distance, q, n);
    ranked[..n]
  }

  /** `search_similar`: without a table, `[]` and no embedding call;
      otherwise the `limit` stored records nearest to the embedded
      "alert_name: current_symptoms", nearest first; a failing embedding or
      search raises with its error. */
  function SearchSimilar(s: Store, alertName: string, symptoms: string, limit: nat,
                         embed: Embedder, db: Database, distance: Distance): (r: Result<seq<Record>, string>)
    ensures s.table.None? ==> r == Success([])
    ensures s.table.Some? && embed(EmbeddingText(alertName, symptoms)).Failure? ==>
      r == Failure(embed(EmbeddingText(alertName, symptoms)).error)
    ensures s.table.Some? && embed(EmbeddingText(alertName, symptoms)).Success? ==>
      var q := embed(EmbeddingText(alertName, symptoms)).value;
      && (r.Failure? <==> db.search(s, q).Some?)
      && (r.Failure? ==> r.error == db.search(s, q).value)
    ensures r.Success? ==> |r.value| <= limit
    ensures r.Success? && s.table.Some? ==>
      && |r.value| == (if limit <= |s.table.value| then limit else |s.table.value|)
      && multiset(r.value) <= multiset(s.table.value)
      && var q := embed(EmbeddingText(alertName, symptoms)).value;
        && Ranked(r.value, distance, q)
        && (forall rec, i :: rec in s.table.value && rec !in r.value && 0 <= i < |r.value| ==>
              Far(distance, q, r.value[i]) <= Far(distance, q, rec))
  {
    match s.table
    case None => Success([])
    case Some(rows) =>
      match embed(EmbeddingText(alertName, symptoms))
      case Failure(e) => Failure(e)
      case Success(q) =>
        match db.search(s, q)
        case Some(e) => Failure(e)
        case None => Success(Nearest(rows, distance, q, limit))
  }

  /** The first incident stored is found by the next search of any limit
      from one up, whatever the symptoms, provided both embeddings, the
      write and the search succeed. */
  lemma FirstIncidentFound(alertName: string, diagnosis: string, rootCause: string, fix: string,
                           embed: Embedder, db: Database, distance: Distance, now: string,
                           symptoms: string, limit: nat)
    requires embed(EmbeddingText(alertName, rootCause)).Success?
    requires embed(EmbeddingText(alertName, symptoms)).Success?
    requires var rec := Record(embed(EmbeddingText(alertName, rootCause)).value, alertName, diagnosis, rootCause, fix, now);
      db.write(Store(None), rec).None?
      && db.search(Store(Some([rec])), embed(EmbeddingText(alertName, symptoms)).value).None?
    requires limit >= 1
    ensures var s := AddIncident(Store(None), alertName, diagnosis, rootCause, fix, embed, db, now).value;
      SearchSimilar(s, alertName, symptoms, limit, embed, db, distance)
        == Success([Record(embed(EmbeddingText(alertName, rootCause)).value, alertName, diagnosis, rootCause, fix, now)])
  {
    var s := AddIncident(Store(None), alertName, diagnosis, rootCause, fix, embed, db, now).value;
    var r := SearchSimilar(s, alertName, symptoms, limit, embed, db, distance).value;
    var rec := Record(embed(EmbeddingText(alertName, rootCause)).value, alertName, diagnosis, rootCause, fix, now);
    assert s.table == Some([rec]);
    assert |r| == 1;
    assert r[0] in multiset(r);
    assert r[0] in multiset([rec]);
    assert r == [rec];
  }
}

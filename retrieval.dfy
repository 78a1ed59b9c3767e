/** Semantic retrieval over the jobs table (app/retrieval.py, class JobRetrieval).

    The embedding provider is a parameter `embed` (one call per text); the
    persisted embedding file is an `EmbeddingFile` object whose presence decides
    between loading and generating; the flat L2 index is the list of vectors added
    to it with its dimension; vectors have integer coordinates so that squared
    Euclidean distances are exact. */
module Retrieval {
  import opened Jobs
  import opened Ranking

  type Vector = seq<int>

  /** Squared Euclidean distance between two vectors of one dimension. */
  function SqDist(a: Vector, b: Vector): nat
    requires |a| == |b|
  {
    if a == [] then 0
    else
      var d := a[0] - b[0];
      d * d + SqDist(a[1..], b[1..])
  }

  /** Every vector has `dim` coordinates: a matrix with `dim` columns. */
  predicate IsMatrix(vs: seq<Vector>, dim: nat) {
    forall i :: 0 <= i < |vs| ==> |vs[i]| == dim
  }

  /** Vectors that `np.array` can stack into a matrix: none, or all of the
      first one's width. */
  predicate Rectangular(vs: seq<Vector>) {
    |vs| == 0 || IsMatrix(vs, |vs[0]|)
  }

  /** A matrix an index can be built from: at least one row, so that its second
      dimension exists, and all rows of that length. */
  predicate Indexable(vs: seq<Vector>) {
    |vs| > 0 && IsMatrix(vs, |vs[0]|)
  }

  // ---------------------------------------------------------------------------
  // Embedding generation (generate_embeddings)

  /** One provider call per text, in input order, one vector per text. */
  method GenerateEmbeddings(texts: seq<string>, embed: string -> Vector)
    returns (vectors: seq<Vector>, sent: seq<string>)
    ensures |vectors| == |texts|
    ensures forall i :: 0 <= i < |texts| ==> vectors[i] == embed(texts[i])
    ensures sent == texts
  {
    vectors, sent := [], [];
    for i := 0 to |texts|
      invariant |vectors| == i
      invariant forall j :: 0 <= j < i ==> vectors[j] == embed(texts[j])
      invariant sent == texts[..i]
    {
      var v := embed(texts[i]);
      sent := sent + [texts[i]];
      vectors := vectors + [v];
    }
  }

  // ---------------------------------------------------------------------------
  // Exact nearest-neighbour search (IndexFlatL2.search)

  /** Row positions 0 .. n-1. */
  function RowIds(n: nat): (ids: seq<nat>)
    ensures |ids| == n
    ensures forall i :: 0 <= i < n ==> ids[i] == i
  {
    seq(n, i requires 0 <= i < n => i)
  }

  /** Distance of row `i` of the index from `q` (0 for a row that is absent or of
      another dimension, which the search never meets). */
  function DistanceTo(index: seq<Vector>, q: Vector, i: nat): nat {
    if i < |index| && |index[i]| == |q| then SqDist(q, index[i]) else 0
  }

  /** Nearer is better. */
  function Closeness(index: seq<Vector>, q: Vector): nat -> int {
    (i: nat) => -(DistanceTo(index, q, i) as int)
  }

  /** Lower row first among equally distant rows. */
  function RowOrder(): nat -> int {
    i => i
  }

  /** The row positions of the `k` vectors nearest to `q`, nearest first; all
      rows when there are fewer than `k`. */
  function Nearest(index: seq<Vector>, q: Vector, k: nat): (ids: seq<nat>)
    ensures |ids| == if k < |index| then k else |index|
  {
    Top(RowIds(|index|), Closeness(index, q), k)
  }

  lemma NearestFromTop(index: seq<Vector>, q: Vector, k: nat)
    ensures var ids := Nearest(index, q, k);
      && Ranked(ids, Closeness(index, q), RowOrder())
      && Distinct(ids)
      && (forall x :: x in ids ==> x in RowIds(|index|))
      && (forall x, y :: x in RowIds(|index|) && x !in ids && y in ids ==>
            Closeness(index, q)(x) <= Closeness(index, q)(y))
  {
    assert StrictlyIncreasing(RowIds(|index|), RowOrder());
    TopIsBest(RowIds(|index|), Closeness(index, q), RowOrder(), k);
  }

  /** The search returns `min(k, rows)` distinct row positions of the index. */
  lemma NearestRows(index: seq<Vector>, q: Vector, k: nat)
    ensures var ids := Nearest(index, q, k);
      && |ids| == (if k < |index| then k else |index|)
      && (forall i :: 0 <= i < |ids| ==> ids[i] < |index|)
      && Distinct(ids)
  {
    var ids := Nearest(index, q, k);
    var all := RowIds(|index|);
    assert Distinct(ids) by { NearestFromTop(index, q, k); }
    assert forall x :: x in ids ==> x in all by { NearestFromTop(index, q, k); }
    forall i | 0 <= i < |ids| ensures ids[i] < |index| {
      assert ids[i] in ids;
      var j :| 0 <= j < |all| && all[j] == ids[i];
    }
  }

  lemma ClosenessOfRow(index: seq<Vector>, q: Vector, r: nat)
    requires r < |index| && |index[r]| == |q|
    ensures Closeness(index, q)(r) == -(SqDist(q, index[r]) as int)
  {
  }

  /** Rows come in non-decreasing squared distance from `q`, lower row first on
      a tie. */
  lemma NearestOrder(index: seq<Vector>, q: Vector, k: nat)
    requires IsMatrix(index, |q|)
    ensures var ids := Nearest(index, q, k);
      && (forall i :: 0 <= i < |ids| ==> ids[i] < |index|)
      && (forall i, j :: 0 <= i < j < |ids| ==> SqDist(q, index[ids[i]]) <= SqDist(q, index[ids[j]]))
      && (forall i, j :: 0 <= i < j < |ids| && SqDist(q, index[ids[i]]) == SqDist(q, index[ids[j]]) ==>
            ids[i] < ids[j])
  {
    var ids := Nearest(index, q, k);
    var score := Closeness(index, q);
    NearestRows(index, q, k);
    NearestFromTop(index, q, k);
    forall i, j | 0 <= i < j < |ids|
      ensures SqDist(q, index[ids[i]]) < SqDist(q, index[ids[j]])
        || (SqDist(q, index[ids[i]]) == SqDist(q, index[ids[j]]) && ids[i] < ids[j])
    {
      assert score(ids[i]) > score(ids[j]) || (score(ids[i]) == score(ids[j]) && RowOrder()(ids[i]) < RowOrder()(ids[j]));
      ClosenessOfRow(index, q, ids[i]);
      ClosenessOfRow(index, q, ids[j]);
    }
  }

  /** No row left out is strictly closer to `q` than any row returned. */
  lemma NearestComplete(index: seq<Vector>, q: Vector, k: nat)
    requires IsMatrix(index, |q|)
    ensures var ids := Nearest(index, q, k);
      && (forall i :: 0 <= i < |ids| ==> ids[i] < |index|)
      && forall r, i :: 0 <= r < |index| && r !in ids && 0 <= i < |ids| ==>
        SqDist(q, index[ids[i]]) <= SqDist(q, index[r])
  {
    var ids := Nearest(index, q, k);
    NearestRows(index, q, k);
    NearestFromTop(index, q, k);
    forall r, i | 0 <= r < |index| && r !in ids && 0 <= i < |ids|
      ensures SqDist(q, index[ids[i]]) <= SqDist(q, index[r])
    {
      assert RowIds(|index|)[r] == r;
      assert ids[i] in ids;
      assert Closeness(index, q)(r) <= Closeness(index, q)(ids[i]);
    }
  }

  // ---------------------------------------------------------------------------
  // From row positions to postings (DataFrame.iloc)

  datatype RetrievalError =
    | DimensionMismatch   // the query vector's dimension is not the index's
    | RowOutOfRange       // the index holds more vectors than the table has rows

  /** Positional lookup of the given rows. */
  function RowsAt(rows: seq<Posting>, ids: seq<nat>): (r: Result<seq<Posting>, RetrievalError>)
    ensures r.Ok? <==> forall i :: 0 <= i < |ids| ==> ids[i] < |rows|
    ensures r.Err? ==> r.error == RowOutOfRange
    ensures r.Ok? ==> |r.value| == |ids| && forall i :: 0 <= i < |ids| ==> r.value[i] == rows[ids[i]]
  {
    if forall i :: 0 <= i < |ids| ==> ids[i] < |rows| then
      Ok(seq(|ids|, i requires 0 <= i < |ids| && ids[i] < |rows| => rows[ids[i]]))
    else Err(RowOutOfRange)
  }

  /** query(user_query, top_k) once the query vector `q` is known: search the
      index, then map the row positions back to postings. */
  function Retrieve(rows: seq<Posting>, index: seq<Vector>, dim: nat, q: Vector, k: nat)
    : (r: Result<seq<Posting>, RetrievalError>)
    ensures r == Err(DimensionMismatch) <==> |q| != dim
    ensures r.Ok? ==> |r.value| == if k < |index| then k else |index|
  {
    if |q| != dim then Err(DimensionMismatch)
    else RowsAt(rows, Nearest(index, q, k))
  }

  /** A query of the right dimension against an index no larger than the table
      always succeeds; a successful query returns `min(k, index rows)` postings,
      each the table row at the position the search found, in search order. */
  lemma RetrieveSpec(rows: seq<Posting>, index: seq<Vector>, dim: nat, q: Vector, k: nat)
    requires IsMatrix(index, dim)
    ensures var r := Retrieve(rows, index, dim, q, k);
      && (r == Err(DimensionMismatch) <==> |q| != dim)
      && (|q| == dim && |index| <= |rows| ==> r.Ok?)
      && (r.Ok? ==>
            var ids := Nearest(index, q, k);
            && |r.value| == (if k < |index| then k else |index|)
            && |ids| == |r.value|
            && forall i :: 0 <= i < |ids| ==> ids[i] < |rows| && r.value[i] == rows[ids[i]])
  {
    NearestRows(index, q, k);
  }

  // ---------------------------------------------------------------------------
  // The search as written, for fewer rows than requested

  /** The flat index fills the places it has no row for with -1. */
  function PaddedSearch(index: seq<Vector>, q: Vector, k: nat): (ids: seq<int>)
    ensures |ids| == k
  {
    var found: seq<int> := Nearest(index, q, k);
    found + seq(k - |found|, _ => -1)
  }

  /** Positional lookup with Python's negative positions counting from the end. */
  function ILoc(rows: seq<Posting>, i: int): Option<Posting> {
    if 0 <= i < |rows| then Some(rows[i])
    else if -|rows| <= i < 0 then Some(rows[|rows| + i])
    else None
  }

  function RowsAtPadded(rows: seq<Posting>, ids: seq<int>): (r: Result<seq<Posting>, RetrievalError>)
    ensures r.Ok? <==> forall i :: 0 <= i < |ids| ==> ILoc(rows, ids[i]).Some?
    ensures r.Err? ==> r.error == RowOutOfRange
    ensures r.Ok? ==> |r.value| == |ids| && forall i :: 0 <= i < |ids| ==> r.value[i] == ILoc(rows, ids[i]).value
  {
    if forall i :: 0 <= i < |ids| ==> ILoc(rows, ids[i]).Some? then
      Ok(seq(|ids|, i requires 0 <= i < |ids| && ILoc(rows, ids[i]).Some? => ILoc(rows, ids[i]).value))
    else Err(RowOutOfRange)
  }

  /** query as written: the padded positions are looked up as they are. */
  function RetrieveAsWritten(rows: seq<Posting>, index: seq<Vector>, dim: nat, q: Vector, k: nat)
    : (r: Result<seq<Posting>, RetrievalError>)
    ensures r == Err(DimensionMismatch) <==> |q| != dim
    ensures r.Ok? ==> |r.value| == k
  {
    if |q| != dim then Err(DimensionMismatch)
    else RowsAtPadded(rows, PaddedSearch(index, q, k))
  }

  /** With at least `k` indexed rows nothing is padded, and the query as written
      gives exactly what the corrected query gives. */
  lemma AsWrittenAgreesWithoutPadding(rows: seq<Posting>, index: seq<Vector>, dim: nat, q: Vector, k: nat)
    requires k <= |index|
    ensures RetrieveAsWritten(rows, index, dim, q, k) == Retrieve(rows, index, dim, q, k)
  {
    var ids := Nearest(index, q, k);
    var padded := PaddedSearch(index, q, k);
    assert padded == ids;
    if |q| == dim {
      if forall i :: 0 <= i < |ids| ==> ids[i] < |rows| {
        assert RowsAtPadded(rows, padded).value == RowsAt(rows, ids).value;
      } else {
        var i :| 0 <= i < |ids| && ids[i] >= |rows|;
        assert ILoc(rows, padded[i]).None?;
      }
    }
  }

  /** With fewer rows than requested, the search returns every row (the last one
      among them) and pads the rest with -1. */
  lemma PaddedSearchShape(index: seq<Vector>, q: Vector, k: nat)
    requires |index| < k
    ensures var ids := PaddedSearch(index, q, k);
      && (forall i :: 0 <= i < |index| ==> 0 <= ids[i] < |index|)
      && (forall i :: |index| <= i < k ==> ids[i] == -1)
      && (|index| > 0 ==> exists j :: 0 <= j < |index| && ids[j] == |index| - 1)
  {
    var found := Nearest(index, q, k);
    var ids := PaddedSearch(index, q, k);
    NearestRows(index, q, k);
    assert forall i :: 0 <= i < |found| ==> ids[i] == found[i];
    if |index| > 0 {
      var last: nat := |index| - 1;
      assert RowIds(|index|)[last] == last;
      RankMembers(RowIds(|index|), Closeness(index, q), last);
      assert found == Rank(RowIds(|index|), Closeness(index, q));
      var j :| 0 <= j < |found| && found[j] == last;
      assert ids[j] == last;
    }
  }

  /** Looking up found positions followed by -1 padding gives one posting per
      position, and the first padding place holds the last row. */
  lemma PaddedLookup(rows: seq<Posting>, ids: seq<int>)
    requires 0 < |rows| < |ids|
    requires forall i :: 0 <= i < |rows| ==> 0 <= ids[i] < |rows|
    requires forall i :: |rows| <= i < |ids| ==> ids[i] == -1
    ensures var r := RowsAtPadded(rows, ids);
      && r.Ok? && |r.value| == |ids|
      && (forall i :: 0 <= i < |rows| ==> r.value[i] == rows[ids[i]])
      && r.value[|rows|] == rows[|rows| - 1]
  {
    assert forall i :: 0 <= i < |ids| ==> ILoc(rows, ids[i]).Some?;
  }

  /** With fewer rows than requested, the as-written query returns `k` postings
      and the last row of the table appears twice: once where the search found
      it and once for the first -1 of the padding. */
  lemma PaddedQueryRepeatsLastRow(rows: seq<Posting>, index: seq<Vector>, q: Vector, k: nat)
    requires 0 < |index| == |rows| < k
    ensures var r := RetrieveAsWritten(rows, index, |q|, q, k);
      && r.Ok? && |r.value| == k
      && r.value[|rows|] == rows[|rows| - 1]
      && exists j :: 0 <= j < |rows| && r.value[j] == rows[|rows| - 1]
  {
    var ids := PaddedSearch(index, q, k);
    PaddedSearchShape(index, q, k);
    PaddedLookup(rows, ids);
    var j :| 0 <= j < |index| && ids[j] == |index| - 1;
    assert RowsAtPadded(rows, ids).value[j] == rows[|rows| - 1];
  }

  // ---------------------------------------------------------------------------
  // The retrieval object

  /** The persisted embedding file. */
  class EmbeddingFile {
    var present: bool
    var saved: seq<Vector>

    constructor (present: bool, saved: seq<Vector>)
      ensures this.present == present && this.saved == saved
    {
      this.present := present;
      this.saved := saved;
    }
  }

  class JobRetrieval {
    const rows: seq<Posting>
    const embed: string -> Vector
    const file: EmbeddingFile
    var embeddings: seq<Vector>
    /** The vectors added to the flat L2 index, and its dimension. */
    var index: seq<Vector>
    var dim: nat
    /** Whether the index was built; construction fails when it was not. */
    var ready: bool

    ghost predicate Valid()
      reads this
    {
      ready ==> Indexable(embeddings) && index == embeddings && dim == |embeddings[0]| && IsMatrix(index, dim)
    }

    /** __init__: keep the table, then load or create the embeddings. */
    constructor (rows: seq<Posting>, embed: string -> Vector, file: EmbeddingFile)
      modifies file
      ensures Valid()
      ensures this.rows == rows && this.embed == embed && this.file == file
      ensures old(file.present) ==> embeddings == old(file.saved) && unchanged(file)
      ensures !old(file.present) ==>
        && |embeddings| == |rows|
        && (forall i :: 0 <= i < |rows| ==> embeddings[i] == embed(rows[i].jobDescription))
        && (Rectangular(embeddings) ==> file.present && file.saved == embeddings)
        && (!Rectangular(embeddings) ==> unchanged(file) && !ready)
      ensures ready == Indexable(embeddings)
    {
      this.rows := rows;
      this.embed := embed;
      this.file := file;
      embeddings, index, dim, ready := [], [], 0, false;
      new;
      var _ := LoadEmbeddings();
    }

    /** load_embeddings: use the persisted vectors when the file is present and
        never call the provider; otherwise embed every description, in row order,
        and persist the result, unless the vectors differ in width: stacking them
        then fails before anything is written. Then build the index from the
        embeddings, which fails (`ready` stays false) when they have no rows or no
        common width. */
    method LoadEmbeddings() returns (sent: seq<string>)
      requires Valid()
      modifies this, file
      ensures Valid()
      ensures old(file.present) ==> embeddings == old(file.saved) && sent == [] && unchanged(file)
      ensures !old(file.present) ==>
        && |embeddings| == |rows|
        && (forall i :: 0 <= i < |rows| ==> embeddings[i] == embed(rows[i].jobDescription))
        && sent == Descriptions(rows)
        && (Rectangular(embeddings) ==> file.present && file.saved == embeddings)
        && (!Rectangular(embeddings) ==> unchanged(file) && !ready)
      ensures ready == Indexable(embeddings)
      ensures ready ==> index == embeddings && dim == |embeddings[0]|
    {
      if file.present {
        embeddings := file.saved;
        sent := [];
      } else {
        embeddings, sent := GenerateEmbeddings(Descriptions(rows), embed);
        if Rectangular(embeddings) {
          file.present, file.saved := true, embeddings;
        }
      }
      if Indexable(embeddings) {
        index, dim, ready := embeddings, |embeddings[0]|, true;
      } else {
        ready := false;
      }
    }

    /** query(user_query, top_k=3): one provider call for the query text, then the
        nearest rows of the table. */
    method Query(userQuery: string, topK: nat := 3)
      returns (r: Result<seq<Posting>, RetrievalError>, sent: seq<string>)
      requires Valid() && ready && topK > 0
      ensures sent == [userQuery]
      ensures r == Retrieve(rows, index, dim, embed(userQuery), topK)
      ensures r.Ok? ==> |r.value| == if topK < |index| then topK else |index|
    {
      var q := embed(userQuery);
      sent := [userQuery];
      RetrieveSpec(rows, index, dim, q, topK);
      r := Retrieve(rows, index, dim, q, topK);
    }
  }
}

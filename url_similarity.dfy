/**
 * `URLSimilarityAnalyzer`: ranking the pages of a link catalogue by how close
 * their H1 is to a target keyword, and listing a catalogue's clusters.
 *
 * A catalogue is the table read from one CSV file, given as its rows; the
 * analyzer's `databases` is the dictionary of catalogues by name, in the
 * order the directory listing produced them. The embedding service is
 * `embedder(n, text)`: the reply to the `n`-th request of a search (the
 * target keyword is request 0), `None` standing for a request that raised.
 * The cosine arithmetic is the parameter `cosine`.
 */
module UrlSimilarity {
  import opened Wrappers
  import opened OrderedDict
  import opened StableSort
  import opened PageData

  type Embedder = (nat, string) -> Option<Embedding>

  const MaxPotentialOutlinks := 10

  /** A table cell: text, or the NaN pandas reads for an empty cell. */
  datatype Cell = Text(text: string) | Missing

  /** `str(cell)`: NaN prints as "nan". */
  function Str(c: Cell): string {
    match c
    case Text(s) => s
    case Missing => "nan"
  }

  /** One catalogue row; only the columns the ranking reads. */
  datatype CatalogRow = CatalogRow(url: string, h1: Cell, cluster: Cell)

  /** One entry of the ranking. */
  datatype Outlink = Outlink(url: string, similarity: real, cluster: Cell, h1: string)

  /** Sort key `x['similarity']`. */
  function SimilarityKey(o: Outlink): Key {
    Key(o.similarity, 0)
  }

  type Databases = ODict<string, seq<CatalogRow>>

  /** `get_available_databases`: every catalogue name, once each, in dictionary order. */
  function AvailableDatabases(databases: Databases): (names: seq<string>)
    requires databases.Valid()
    ensures forall i, j :: 0 <= i < j < |names| ==> names[i] != names[j]
    ensures forall name :: name in names <==> name in databases.entries
  {
    databases.keys
  }

  /** `(cluster, ())` for each row: the pairs whose dictionary keys are `unique()`. */
  function ClusterPairs(rows: seq<CatalogRow>): (ps: seq<(Cell, ())>)
    ensures |ps| == |rows|
    ensures forall i :: 0 <= i < |rows| ==> ps[i].0 == rows[i].cluster
  {
    seq(|rows|, i requires 0 <= i < |rows| => (rows[i].cluster, ()))
  }

  /** `df['cluster_name'].unique().tolist()` */
  function UniqueClusters(rows: seq<CatalogRow>): seq<Cell> {
    FromPairs(ClusterPairs(rows)).keys
  }

  /** `get_clusters_for_database`: `[]` for an unknown name. */
  function ClustersForDatabase(databases: Databases, dbName: string): (clusters: seq<Cell>)
    ensures dbName !in databases.entries ==> clusters == []
  {
    if dbName !in databases.entries then [] else UniqueClusters(databases.entries[dbName])
  }

  /**
   * The listed clusters are the distinct cluster cells of the rows, each
   * once, in the order of their first appearance.
   */
  lemma UniqueClustersProperties(rows: seq<CatalogRow>)
    ensures var cs := UniqueClusters(rows);
      && (forall i, j :: 0 <= i < j < |cs| ==> cs[i] != cs[j])
      && (forall c :: c in cs <==> exists i :: 0 <= i < |rows| && rows[i].cluster == c)
      && (forall a, b :: 0 <= a < b < |cs| ==>
            FirstAt(ClusterPairs(rows), cs[a]) < FirstAt(ClusterPairs(rows), cs[b]))
  {
    var ps := ClusterPairs(rows);
    var d := FromPairs(ps);
    FromPairsKeys(ps);
    FromPairsFirstOrder(ps);
    forall c ensures c in d.keys <==> exists i :: 0 <= i < |rows| && rows[i].cluster == c {
      if c in d.keys {
        assert ps[FirstAt(ps, c)].0 == c;
      }
      if exists i :: 0 <= i < |rows| && rows[i].cluster == c {
        var i :| 0 <= i < |rows| && rows[i].cluster == c;
        assert FirstAt(ps, c) <= i;
      }
    }
  }

  /** The hard-clustering condition `cluster_name and hard_clustering`. */
  predicate FiltersByCluster(clusterName: Option<string>, hardClustering: bool) {
    clusterName.Some? && clusterName.value != "" && hardClustering
  }

  /** `db_data[db_data['cluster_name'] == cluster_name]`: a NaN cell equals no name. */
  function InCluster(rows: seq<CatalogRow>, name: string): (r: seq<CatalogRow>)
    ensures |r| <= |rows|
    ensures forall row :: row in r <==> row in rows && row.cluster == Text(name)
  {
    if rows == [] then []
    else
      var last := rows[|rows| - 1];
      InCluster(rows[..|rows| - 1], name) + (if last.cluster == Text(name) then [last] else [])
  }

  /** The rows searched: the catalogue, or only the named cluster's rows under hard clustering. */
  function Candidates(rows: seq<CatalogRow>, clusterName: Option<string>, hardClustering: bool): (r: seq<CatalogRow>)
    ensures !FiltersByCluster(clusterName, hardClustering) ==> r == rows
    ensures FiltersByCluster(clusterName, hardClustering) ==>
      forall row :: row in r <==> row in rows && row.cluster == Text(clusterName.value)
  {
    if FiltersByCluster(clusterName, hardClustering) then InCluster(rows, clusterName.value) else rows
  }

  /** The rows not skipped: those whose `str(h1)` is non-empty (a NaN H1 is kept as "nan"). */
  function Scanned(rows: seq<CatalogRow>): (r: seq<CatalogRow>)
    ensures |r| <= |rows|
  {
    if rows == [] then []
    else
      var last := rows[|rows| - 1];
      Scanned(rows[..|rows| - 1]) + (if Str(last.h1) != "" then [last] else [])
  }

  /** A row is kept exactly when its H1 is not empty. */
  lemma {:induction false} ScannedMembers(rows: seq<CatalogRow>)
    ensures forall row :: row in Scanned(rows) <==> row in rows && Str(row.h1) != ""
  {
    if rows != [] {
      var init := rows[..|rows| - 1];
      ScannedMembers(init);
      assert rows == init + [rows[|rows| - 1]];
    }
  }

  /** `_get_embedding`: the reply, or `[]` when the request raised. */
  function EmbeddingOf(reply: Option<Embedding>): (e: Embedding)
    ensures reply.None? ==> e == []
  {
    if reply.Some? then reply.value else []
  }

  /** `_calculate_similarity`: 0.0 when either vector is empty, the cosine otherwise. */
  function Similarity(cosine: (Embedding, Embedding) -> real, e1: Embedding, e2: Embedding): (s: real)
    ensures |e1| == 0 || |e2| == 0 ==> s == 0.0
    ensures |e1| != 0 && |e2| != 0 ==> s == cosine(e1, e2)
  {
    if |e1| == 0 || |e2| == 0 then 0.0 else cosine(e1, e2)
  }

  /** The entry made for a scanned row whose H1 is embedded by request `n`. */
  function Score(embedder: Embedder, cosine: (Embedding, Embedding) -> real, target: Embedding,
                 row: CatalogRow, n: nat): Outlink
  {
    var h1 := Str(row.h1);
    Outlink(row.url, Similarity(cosine, target, EmbeddingOf(embedder(n, h1))), row.cluster, h1)
  }

  /** `similarities`: the entry of each scanned row in turn, the `j`-th row's H1 embedded by request `from + j`. */
  function Scores(embedder: Embedder, cosine: (Embedding, Embedding) -> real, target: Embedding,
                  rows: seq<CatalogRow>, from: nat): (r: seq<Outlink>)
    ensures |r| == |rows|
  {
    if rows == [] then []
    else
      var last := rows[|rows| - 1];
      Scores(embedder, cosine, target, rows[..|rows| - 1], from) + [Score(embedder, cosine, target, last, from + |rows| - 1)]
  }

  /** Each entry's url, cluster and H1 come from its own row, and its score from that row's request. */
  lemma {:induction false} ScoresFromRows(embedder: Embedder, cosine: (Embedding, Embedding) -> real, target: Embedding,
                                          rows: seq<CatalogRow>, from: nat, j: nat)
    requires j < |rows|
    ensures var o := Scores(embedder, cosine, target, rows, from)[j];
      && o.url == rows[j].url && o.cluster == rows[j].cluster && o.h1 == Str(rows[j].h1)
      && o.similarity == Similarity(cosine, target, EmbeddingOf(embedder(from + j, Str(rows[j].h1))))
  {
    if j < |rows| - 1 {
      ScoresFromRows(embedder, cosine, target, rows[..|rows| - 1], from, j);
    }
  }

  /** A row whose embedding request raised stays in the list, scored 0.0. */
  lemma FailedEmbeddingScoresZero(embedder: Embedder, cosine: (Embedding, Embedding) -> real, target: Embedding,
                                  rows: seq<CatalogRow>, from: nat, j: nat)
    requires j < |rows|
    requires embedder(from + j, Str(rows[j].h1)).None?
    ensures Scores(embedder, cosine, target, rows, from)[j] == Outlink(rows[j].url, 0.0, rows[j].cluster, Str(rows[j].h1))
  {
    ScoresFromRows(embedder, cosine, target, rows, from, j);
  }

  /** The ranking `find_potential_outlinks` returns, and the embedding requests it makes. */
  datatype Search = Search(outlinks: seq<Outlink>, requests: nat)

  /** `find_potential_outlinks(target_keyword, db_name, cluster_name, hard_clustering)` */
  function PotentialOutlinks(databases: Databases, embedder: Embedder, cosine: (Embedding, Embedding) -> real,
                             targetKeyword: string, dbName: string, clusterName: Option<string>,
                             hardClustering: bool): Search
  {
    if dbName !in databases.entries then Search([], 0)
    else
      var scanned := Scanned(Candidates(databases.entries[dbName], clusterName, hardClustering));
      var target := EmbeddingOf(embedder(0, targetKeyword));
      var scored := Scores(embedder, cosine, target, scanned, 1);
      Search(Take(SortDesc(scored, SimilarityKey), MaxPotentialOutlinks), 1 + |scanned|)
  }

  /** The entry's url, cluster and H1 are those of `row`. */
  predicate FromRow(o: Outlink, row: CatalogRow) {
    o.url == row.url && o.cluster == row.cluster && o.h1 == Str(row.h1)
  }

  /**
   * The ranking holds at most ten entries, each made from a searched row
   * with a non-empty H1, in descending order of similarity; it is the
   * first `min(n, 10)` entries of the stable sort of all `n` entries.
   */
  lemma PotentialOutlinksProperties(databases: Databases, embedder: Embedder, cosine: (Embedding, Embedding) -> real,
                                    targetKeyword: string, dbName: string, clusterName: Option<string>,
                                    hardClustering: bool)
    requires dbName in databases.entries
    ensures var scanned := Scanned(Candidates(databases.entries[dbName], clusterName, hardClustering));
      var target := EmbeddingOf(embedder(0, targetKeyword));
      var scored := Scores(embedder, cosine, target, scanned, 1);
      var r := PotentialOutlinks(databases, embedder, cosine, targetKeyword, dbName, clusterName, hardClustering).outlinks;
      && |r| == (if |scanned| < MaxPotentialOutlinks then |scanned| else MaxPotentialOutlinks)
      && r <= SortDesc(scored, SimilarityKey)
      && SortedDesc(r, SimilarityKey)
      && SameOrderPerKey(SortDesc(scored, SimilarityKey), scored, SimilarityKey)
      && (forall o :: o in r ==> exists row :: FromRow(o, row) && row in scanned && Str(row.h1) != "")
  {
    var scanned := Scanned(Candidates(databases.entries[dbName], clusterName, hardClustering));
    var target := EmbeddingOf(embedder(0, targetKeyword));
    var scored := Scores(embedder, cosine, target, scanned, 1);
    var sorted := SortDesc(scored, SimilarityKey);
    var r := Take(sorted, MaxPotentialOutlinks);
    SortDescSorted(scored, SimilarityKey);
    SortDescStable(scored, SimilarityKey);
    forall i, j | 0 <= i < j < |r| ensures Ge(SimilarityKey(r[i]), SimilarityKey(r[j])) {
      assert r[i] == sorted[i] && r[j] == sorted[j];
    }
    ScannedMembers(Candidates(databases.entries[dbName], clusterName, hardClustering));
    forall o | o in r
      ensures exists row :: FromRow(o, row) && row in scanned && Str(row.h1) != ""
    {
      var i :| 0 <= i < |r| && r[i] == o;
      assert o in multiset(sorted);
      assert o in multiset(scored);
      var j :| 0 <= j < |scored| && scored[j] == o;
      ScoresFromRows(embedder, cosine, target, scanned, 1, j);
      assert scanned[j] in scanned;
    }
  }

  /** When the target keyword's own request raised, every entry scores 0.0. */
  lemma TargetFailureScoresZero(embedder: Embedder, cosine: (Embedding, Embedding) -> real,
                                rows: seq<CatalogRow>, from: nat, j: nat)
    requires j < |rows|
    ensures Scores(embedder, cosine, [], rows, from)[j].similarity == 0.0
  {
    ScoresFromRows(embedder, cosine, [], rows, from, j);
  }

  /** The loop's invariant after the first `i` rows. */
  ghost predicate ScoredSoFar(embedder: Embedder, cosine: (Embedding, Embedding) -> real, target: Embedding,
                              rows: seq<CatalogRow>, i: int, similarities: seq<Outlink>, requests: nat)
  {
    && 0 <= i <= |rows|
    && requests == 1 + |Scanned(rows[..i])|
    && similarities == Scores(embedder, cosine, target, Scanned(rows[..i]), 1)
  }

  lemma ScoredSoFarStep(embedder: Embedder, cosine: (Embedding, Embedding) -> real, target: Embedding,
                        rows: seq<CatalogRow>, i: int, similarities: seq<Outlink>, requests: nat)
    requires i < |rows|
    requires ScoredSoFar(embedder, cosine, target, rows, i, similarities, requests)
    ensures Str(rows[i].h1) == "" ==> ScoredSoFar(embedder, cosine, target, rows, i + 1, similarities, requests)
    ensures Str(rows[i].h1) != "" ==> ScoredSoFar(embedder, cosine, target, rows, i + 1,
      similarities + [Score(embedder, cosine, target, rows[i], requests)], requests + 1)
  {
    var kept := Scanned(rows[..i]);
    assert rows[..i + 1][..i] == rows[..i];
    if Str(rows[i].h1) == "" {
      assert Scanned(rows[..i + 1]) == kept + [];
      assert kept + [] == kept;
    } else {
      assert Scanned(rows[..i + 1]) == kept + [rows[i]];
      assert (kept + [rows[i]])[..|kept|] == kept;
    }
  }

  /**
   * The loop of `find_potential_outlinks` over the searched rows: rows with
   * an empty H1 are skipped, every other row is scored with the next
   * embedding request (request 0 was the target's).
   */
  method ScoreRows(embedder: Embedder, cosine: (Embedding, Embedding) -> real, target: Embedding,
                   rows: seq<CatalogRow>)
    returns (similarities: seq<Outlink>, requests: nat)
    ensures similarities == Scores(embedder, cosine, target, Scanned(rows), 1)
    ensures requests == 1 + |Scanned(rows)|
  {
    requests := 1;
    similarities := [];
    var i := 0;
    while i < |rows|
      invariant ScoredSoFar(embedder, cosine, target, rows, i, similarities, requests)
      decreases |rows| - i
    {
      var row := rows[i];
      ScoredSoFarStep(embedder, cosine, target, rows, i, similarities, requests);
      var h1 := Str(row.h1);
      if h1 == "" {
        i := i + 1;
        continue;
      }
      var embedding := EmbeddingOf(embedder(requests, h1));
      similarities := similarities + [Outlink(row.url, Similarity(cosine, target, embedding), row.cluster, h1)];
      requests := requests + 1;
      i := i + 1;
    }
    assert rows[..i] == rows;
  }

  /**
   * `find_potential_outlinks`: the target's embedding, the loop over the
   * searched rows, then the sort and the cut to `MAX_POTENTIAL_OUTLINKS`.
   */
  method FindPotentialOutlinks(databases: Databases, embedder: Embedder, cosine: (Embedding, Embedding) -> real,
                               targetKeyword: string, dbName: string, clusterName: Option<string>,
                               hardClustering: bool)
    returns (outlinks: seq<Outlink>, requests: nat)
    ensures Search(outlinks, requests)
      == PotentialOutlinks(databases, embedder, cosine, targetKeyword, dbName, clusterName, hardClustering)
    ensures dbName !in databases.entries ==> outlinks == [] && requests == 0
    ensures |outlinks| <= MaxPotentialOutlinks
  {
    if dbName !in databases.entries {
      return [], 0;
    }
    var rows := Candidates(databases.entries[dbName], clusterName, hardClustering);
    var target := EmbeddingOf(embedder(0, targetKeyword));
    var similarities;
    similarities, requests := ScoreRows(embedder, cosine, target, rows);
    outlinks := Take(SortDesc(similarities, SimilarityKey), MaxPotentialOutlinks);
  }
}

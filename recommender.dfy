/**
 * The ranking engine `MovieRecommender`: the per-movie feature text, title
 * resolution, ranking of one similarity row, the catalogue queries, and the
 * lazily filled `df` / `cosine_sim` fields.
 *
 * The similarity matrix itself (TF-IDF weighting and cosine similarity) comes
 * from a library and is an input here: an abstract function from the list of
 * feature texts to an n-by-n matrix of integer scores, or to nothing when the
 * library raises.
 */
module Recommender {
  import opened Wrappers
  import opened Text
  import opened Seqs

  /** One row of the movie table, as `to_dict` gives it; float columns are integers here. */
  datatype Movie = Movie(
    id: int,
    tmdbId: int,
    title: string,
    originalTitle: Option<string>,
    overview: Option<string>,
    genres: Option<seq<string>>,
    releaseDate: Option<string>,
    voteAverage: int,
    voteCount: int,
    popularity: int,
    posterPath: Option<string>,
    backdropPath: Option<string>,
    trailerKey: Option<string>,
    actors: Option<seq<string>>,
    director: Option<string>,
    runtime: Option<int>)

  /** Row i, column j: the similarity of movie i to movie j. */
  type Matrix = seq<seq<int>>

  predicate IsSquare(sim: Matrix, n: nat) {
    |sim| == n && forall i :: 0 <= i < n ==> |sim[i]| == n
  }

  // ---------------------------------------------------------------------------
  // Feature text (`create_content_features`)
  // ---------------------------------------------------------------------------

  /** Python truthiness of an optional list: present and non-empty. */
  predicate HasItems(f: Option<seq<string>>) { f.Some? && |f.value| > 0 }

  /** Python truthiness of an optional string: present and non-empty. */
  predicate HasText(f: Option<string>) { f.Some? && |f.value| > 0 }

  /** The genre names joined by spaces, three copies back to back. */
  function GenrePart(genres: seq<string>): string { Repeat(Join(" ", genres), 3) }

  /** The actor names joined by spaces, two copies back to back. */
  function ActorPart(actors: seq<string>): string { Repeat(Join(" ", actors), 2) }

  /** The parts the feature text is built from, in the order genres, overview, actors, director. */
  function FeatureParts(m: Movie): seq<string> {
    (if HasItems(m.genres) then [GenrePart(m.genres.value)] else [])
    + (if HasText(m.overview) then [m.overview.value] else [])
    + (if HasItems(m.actors) then [ActorPart(m.actors.value)] else [])
    + (if HasText(m.director) then [m.director.value] else [])
  }

  /**
   * `create_content_features`: the parts joined by single spaces. A movie with
   * none of the four fields (or only empty ones) has the empty text, and a
   * non-empty overview or director always leaves some text.
   */
  function ContentFeatures(m: Movie): (text: string)
    ensures !HasItems(m.genres) && !HasText(m.overview) && !HasItems(m.actors) && !HasText(m.director) ==> text == ""
    ensures HasText(m.overview) || HasText(m.director) ==> text != ""
  {
    Join(" ", FeatureParts(m))
  }

  /** The genre part is exactly three copies of the joined genres with no separator between them. */
  lemma GenrePartIsThreeCopies(genres: seq<string>)
    ensures GenrePart(genres) == Join(" ", genres) + Join(" ", genres) + Join(" ", genres)
  {
  }

  /** The actor part is exactly two copies of the joined actors with no separator between them. */
  lemma ActorPartIsTwoCopies(actors: seq<string>)
    ensures ActorPart(actors) == Join(" ", actors) + Join(" ", actors)
  {
  }

  /** Because the copies touch, the last genre runs straight into the first one. */
  lemma GenreCopiesFuse()
    ensures GenrePart(["Action", "Drama"]) == "Action DramaAction DramaAction Drama"
  {
    GenrePartIsThreeCopies(["Action", "Drama"]);
  }

  /** Total length distributes over concatenation. */
  lemma {:induction false} TotalLengthAppend(a: seq<string>, b: seq<string>)
    ensures TotalLength(a + b) == TotalLength(a) + TotalLength(b)
    decreases |a|
  {
    if |a| > 0 {
      assert (a + b)[0] == a[0];
      assert (a + b)[1..] == a[1..] + b;
      TotalLengthAppend(a[1..], b);
    } else {
      assert a + b == b;
    }
  }

  /** The length a present part contributes (0 for an absent one). */
  function PartLength(present: bool, len: nat): nat { if present then len else 0 }

  /** One part's contribution to the total length of the parts. */
  lemma PartTotal(present: bool, part: string)
    ensures TotalLength(if present then [part] else []) == PartLength(present, |part|)
  {
  }

  /** The parts together are as long as the present fields, genres counted three times and actors twice. */
  lemma FeaturePartsLength(m: Movie)
    ensures TotalLength(FeatureParts(m)) ==
        PartLength(HasItems(m.genres), 3 * |Join(" ", m.genres.GetOr([]))|)
        + PartLength(HasText(m.overview), |m.overview.GetOr("")|)
        + PartLength(HasItems(m.actors), 2 * |Join(" ", m.actors.GetOr([]))|)
        + PartLength(HasText(m.director), |m.director.GetOr("")|)
  {
    var gp, op, ap, dp := HasItems(m.genres), HasText(m.overview), HasItems(m.actors), HasText(m.director);
    var gs, o, as_, d := GenrePart(m.genres.GetOr([])), m.overview.GetOr(""), ActorPart(m.actors.GetOr([])), m.director.GetOr("");
    var g1 := if gp then [gs] else [];
    var o1 := if op then [o] else [];
    var a1 := if ap then [as_] else [];
    var d1 := if dp then [d] else [];
    assert FeatureParts(m) == g1 + o1 + a1 + d1;
    PartTotal(gp, gs);
    PartTotal(op, o);
    PartTotal(ap, as_);
    PartTotal(dp, d);
    TotalLengthAppend(g1 + o1 + a1, d1);
    TotalLengthAppend(g1 + o1, a1);
    TotalLengthAppend(g1, o1);
  }

  /**
   * The feature text is as long as three copies of the joined genres, the
   * overview, two copies of the joined actors and the director (each only when
   * present), plus one space between each pair of neighbouring parts.
   */
  lemma FeatureTextLength(m: Movie)
    ensures var count := |FeatureParts(m)|;
      |ContentFeatures(m)| ==
        PartLength(HasItems(m.genres), 3 * |Join(" ", m.genres.GetOr([]))|)
        + PartLength(HasText(m.overview), |m.overview.GetOr("")|)
        + PartLength(HasItems(m.actors), 2 * |Join(" ", m.actors.GetOr([]))|)
        + PartLength(HasText(m.director), |m.director.GetOr("")|)
        + (if count == 0 then 0 else count - 1)
  {
    var parts := FeatureParts(m);
    FeaturePartsLength(m);
    if |parts| > 0 {
      JoinLength(" ", parts);
    }
  }

  /** With genres present the text opens with the genre part, followed by a space if anything else is present. */
  lemma GenresComeFirst(m: Movie)
    requires HasItems(m.genres)
    ensures var text, part := ContentFeatures(m), GenrePart(m.genres.value);
      |part| <= |text| && text[..|part|] == part
      && (|FeatureParts(m)| > 1 ==> |part| < |text| && text[|part|] == ' ')
  {
  }

  /** With a director present the text closes with the director, preceded by a space if anything else is present. */
  lemma DirectorComesLast(m: Movie)
    requires HasText(m.director)
    ensures var text, d := ContentFeatures(m), m.director.value;
      |d| <= |text| && text[|text| - |d|..] == d
      && (|FeatureParts(m)| > 1 ==> |d| < |text| && text[|text| - |d| - 1] == ' ')
  {
    var parts := FeatureParts(m);
    JoinLast(" ", parts);
  }

  /** A join ends with its last part, preceded by the separator when there are several parts. */
  lemma {:induction false} JoinLast(sep: string, parts: seq<string>)
    requires |parts| > 0
    ensures var j, z := Join(sep, parts), parts[|parts| - 1];
      |z| <= |j| && j[|j| - |z|..] == z
      && (|parts| > 1 ==> |z| + |sep| <= |j| && j[|j| - |z| - |sep|..|j| - |z|] == sep)
    decreases |parts|
  {
    if |parts| > 1 {
      JoinLast(sep, parts[1..]);
      var rest := Join(sep, parts[1..]);
      var z := parts[|parts| - 1];
      assert parts[1..][|parts[1..]| - 1] == z;
      var j := parts[0] + sep + rest;
      assert j[|j| - |z|..] == rest[|rest| - |z|..];
      if |parts| > 2 {
        assert j[|j| - |z| - |sep|..|j| - |z|] == rest[|rest| - |z| - |sep|..|rest| - |z|];
      } else {
        assert rest == z;
        assert j[|j| - |z| - |sep|..|j| - |z|] == sep;
      }
    }
  }

  /** `df.apply(create_content_features, axis=1)`: one feature text per row, same order. */
  function FeatureTexts(movies: seq<Movie>): (docs: seq<string>)
    ensures |docs| == |movies|
    ensures forall i :: 0 <= i < |movies| ==> docs[i] == ContentFeatures(movies[i])
  {
    seq(|movies|, i requires 0 <= i < |movies| => ContentFeatures(movies[i]))
  }

  // ---------------------------------------------------------------------------
  // Title resolution
  // ---------------------------------------------------------------------------

  /** The `title` column. */
  function Titles(movies: seq<Movie>): (titles: seq<string>)
    ensures |titles| == |movies|
    ensures forall i :: 0 <= i < |movies| ==> titles[i] == movies[i].title
  {
    seq(|movies|, i requires 0 <= i < |movies| => movies[i].title)
  }

  /** `title.lower() == query.lower()`. */
  predicate TitleEquals(title: string, query: string) { Lower(title) == Lower(query) }

  /** `query.lower() in title.lower()`. */
  predicate TitleContains(title: string, query: string) { Contains(Lower(title), Lower(query)) }

  /**
   * The row a title query resolves to (`df[...].index[0]` with the substring
   * fallback); `FindTitleRowSpec` states which row that is.
   */
  function FindTitleRow(titles: seq<string>, query: string): (r: Option<nat>)
    ensures r.Some? ==> r.value < |titles|
  {
    var q := Lower(query);
    match FirstIndex(titles, t => Lower(t) == q)
    case Some(i) => Some(i)
    case None => FirstIndex(titles, t => Contains(Lower(t), q))
  }

  /**
   * A title query resolves to the first row whose title equals the query
   * ignoring case; failing that, to the first row whose title contains it
   * ignoring case; and to no row exactly when no title contains it.
   */
  lemma FindTitleRowSpec(titles: seq<string>, query: string)
    ensures (exists j :: 0 <= j < |titles| && TitleEquals(titles[j], query)) ==>
      var r := FindTitleRow(titles, query);
      && r.Some? && TitleEquals(titles[r.value], query)
      && forall j :: 0 <= j < r.value ==> !TitleEquals(titles[j], query)
    ensures (forall j :: 0 <= j < |titles| ==> !TitleEquals(titles[j], query)) && FindTitleRow(titles, query).Some? ==>
      var r := FindTitleRow(titles, query);
      && TitleContains(titles[r.value], query)
      && forall j :: 0 <= j < r.value ==> !TitleContains(titles[j], query)
    ensures FindTitleRow(titles, query).None? <==> forall j :: 0 <= j < |titles| ==> !TitleContains(titles[j], query)
  {
  }

  /** Queries that agree after lower-casing resolve to the same row. */
  lemma FindTitleRowIgnoresCase(titles: seq<string>, q1: string, q2: string)
    requires Lower(q1) == Lower(q2)
    ensures FindTitleRow(titles, q1) == FindTitleRow(titles, q2)
  {
  }

  /** The empty query is contained in every title, so it resolves as soon as there is a row. */
  lemma EmptyQueryResolves(titles: seq<string>)
    requires |titles| > 0
    ensures FindTitleRow(titles, "").Some?
  {
  }

  // ---------------------------------------------------------------------------
  // Ranking one similarity row
  // ---------------------------------------------------------------------------

  /** The sort key of an `(index, score)` pair. */
  function ScoreOf(p: (nat, int)): int { p.1 }

  /** `list(enumerate(row))`. */
  function Enumerate(row: seq<int>): (pairs: seq<(nat, int)>)
    ensures |pairs| == |row|
    ensures forall i :: 0 <= i < |row| ==> pairs[i] == (i, row[i])
  {
    seq(|row|, i requires 0 <= i < |row| => (i as nat, row[i]))
  }

  /** `p` comes before `q` in the sorted row: higher score, or equal score and lower index. */
  predicate Precedes(p: (nat, int), q: (nat, int)) {
    p.1 > q.1 || (p.1 == q.1 && p.0 < q.0)
  }

  /** Every pair comes before every later pair. */
  ghost predicate RankedOrder(s: seq<(nat, int)>) {
    forall a, b :: 0 <= a < b < |s| ==> Precedes(s[a], s[b])
  }

  /** A pair that comes before every pair of a ranked list can be put in front of it. */
  lemma RankedCons(h: (nat, int), t: seq<(nat, int)>)
    requires RankedOrder(t)
    requires forall j :: 0 <= j < |t| ==> Precedes(h, t[j])
    ensures RankedOrder([h] + t)
  {
  }

  /** Inserting a pair whose index is below all others keeps the ranked order. */
  lemma {:induction false} InsertRanked(x: (nat, int), s: seq<(nat, int)>)
    requires RankedOrder(s)
    requires forall b :: 0 <= b < |s| ==> x.0 < s[b].0
    ensures RankedOrder(Insert(x, s, ScoreOf))
    decreases |s|
  {
    if |s| > 0 && ScoreOf(s[0]) > ScoreOf(x) {
      var rest := Insert(x, s[1..], ScoreOf);
      InsertRanked(x, s[1..]);
      InsertElements(x, s[1..], ScoreOf);
      forall j | 0 <= j < |rest| ensures Precedes(s[0], rest[j]) {
        assert rest[j] in rest;
        if rest[j] != x {
          assert rest[j] in s[1..];
          var b :| 0 <= b < |s[1..]| && s[1..][b] == rest[j];
          assert s[b + 1] == rest[j];
        }
      }
      RankedCons(s[0], rest);
    } else if |s| > 0 {
      forall j | 0 <= j < |s| ensures Precedes(x, s[j]) {
        if j > 0 {
          assert Precedes(s[0], s[j]);
        }
      }
      RankedCons(x, s);
    }
  }

  /**
   * Python's `sorted` is stable also with `reverse=True`: sorting pairs listed
   * in increasing index order by score puts higher scores first and keeps equal
   * scores in increasing index order.
   */
  lemma {:induction false} SortIsStable(s: seq<(nat, int)>)
    requires forall a, b :: 0 <= a < b < |s| ==> s[a].0 < s[b].0
    ensures RankedOrder(SortByKeyDesc(s, ScoreOf))
    decreases |s|
  {
    if |s| > 0 {
      var rest := SortByKeyDesc(s[1..], ScoreOf);
      SortIsStable(s[1..]);
      forall b | 0 <= b < |rest| ensures s[0].0 < rest[b].0 {
        assert rest[b] in multiset(s[1..]);
        var c :| 0 <= c < |s[1..]| && s[1..][c] == rest[b];
        assert s[c + 1] == rest[b];
      }
      InsertRanked(s[0], rest);
    }
  }

  /**
   * `sorted(enumerate(row), key=lambda x: x[1], reverse=True)`: every index of
   * the row exactly once with its score, higher scores first, ties by index.
   */
  function SortedScores(row: seq<int>): (r: seq<(nat, int)>)
    ensures |r| == |row|
    ensures RankedOrder(r)
    ensures forall a :: 0 <= a < |r| ==> r[a].0 < |row| && r[a].1 == row[r[a].0]
    ensures forall i :: 0 <= i < |row| ==> (i, row[i]) in r
  {
    var pairs := Enumerate(row);
    SortIsStable(pairs);
    var r := SortByKeyDesc(pairs, ScoreOf);
    assert forall a :: 0 <= a < |r| ==> r[a] in multiset(pairs);
    assert forall i :: 0 <= i < |row| ==> pairs[i] in multiset(r);
    r
  }

  /** Ranked order never repeats a row index in a list whose scores are read from the row. */
  lemma RankedRowsDistinct(row: seq<int>, s: seq<(nat, int)>)
    requires RankedOrder(s)
    requires forall a :: 0 <= a < |s| ==> s[a].0 < |row| && s[a].1 == row[s[a].0]
    ensures forall a, b :: 0 <= a < b < |s| ==> s[a].0 != s[b].0
  {
  }

  /**
   * `sorted(...)[1:top_n + 1]`: the sorted row without its first element,
   * then up to `top_n` more with Python's slice rules; `RankRowKeepsBest`
   * states that what is kept are the best-ranked rows after the dropped head.
   */
  function RankRow(row: seq<int>, topN: int): (r: seq<(nat, int)>)
    ensures RankedOrder(r)
    ensures forall a :: 0 <= a < |r| ==> r[a].0 < |row| && r[a].1 == row[r[a].0]
    ensures forall a, b :: 0 <= a < b < |r| ==> r[a].0 != r[b].0
    ensures forall a, b :: 0 <= a < b < |r| ==> r[a].1 >= r[b].1
    ensures topN >= 0 && |row| > 0 ==> |r| == Min(topN, |row| - 1)
  {
    var sorted := SortedScores(row);
    var r := PySlice(sorted, 1, topN + 1);
    assert forall a :: 0 <= a < |r| ==> r[a] == sorted[a + ClampIndex(1, |row|)];
    assert RankedOrder(r) by {
      forall a, b | 0 <= a < b < |r| ensures Precedes(r[a], r[b]) {
        assert r[a] == sorted[a + ClampIndex(1, |row|)] && r[b] == sorted[b + ClampIndex(1, |row|)];
      }
    }
    RankedRowsDistinct(row, r);
    r
  }

  /**
   * The ranking keeps the best-ranked rows after the dropped head: every row
   * left out, other than the head, comes after every row kept.
   */
  lemma RankRowKeepsBest(row: seq<int>, topN: int)
    requires |row| > 0
    ensures var r := RankRow(row, topN);
      forall i, a :: 0 <= i < |row| && i != SortedScores(row)[0].0 && i !in RowsOf(r) && 0 <= a < |r| ==>
        Precedes(r[a], (i, row[i]))
  {
    var sorted, r := SortedScores(row), RankRow(row, topN);
    assert forall a :: 0 <= a < |r| ==> r[a] == sorted[a + 1];
    forall i, a | 0 <= i < |row| && i != sorted[0].0 && i !in RowsOf(r) && 0 <= a < |r|
      ensures Precedes(r[a], (i, row[i]))
    {
      var b :| 0 <= b < |sorted| && sorted[b] == (i, row[i]);
      assert b != 0;
      assert forall c :: 0 <= c < |r| ==> r[c].0 in RowsOf(r);
      assert forall c :: 0 <= c < |r| ==> r[c].0 != i;
      assert forall c :: 1 <= c <= |r| ==> sorted[c] == r[c - 1];
      assert forall c :: 1 <= c <= |r| ==> sorted[c].0 != i;
      assert a + 1 < b;
    }
  }

  /** `m` is the first index holding the row's largest score. */
  ghost predicate IsFirstArgMax(row: seq<int>, m: nat) {
    && m < |row|
    && (forall j :: 0 <= j < |row| ==> row[j] <= row[m])
    && (forall j :: 0 <= j < m ==> row[j] < row[m])
  }

  /** The row indices listed in a ranking. */
  function RowsOf(s: seq<(nat, int)>): set<nat> {
    set a | 0 <= a < |s| :: s[a].0
  }

  /** The element the slice drops, the head of the sorted row, is the first index with the top score. */
  lemma SortedHeadIsFirstArgMax(row: seq<int>)
    requires |row| > 0
    ensures IsFirstArgMax(row, SortedScores(row)[0].0)
  {
  }

  /**
   * The ranking drops exactly one row: the first row holding the top score,
   * which is the query row only when no earlier row ties its score. When
   * `top_n` is at least n - 1 every other row is listed.
   */
  lemma RankRowDropsFirstArgMax(row: seq<int>, topN: int, m: nat)
    requires IsFirstArgMax(row, m)
    ensures m !in RowsOf(RankRow(row, topN))
    ensures topN >= |row| - 1 ==> forall i :: 0 <= i < |row| ==> (i in RowsOf(RankRow(row, topN)) <==> i != m)
  {
    var sorted := SortedScores(row);
    SortedHeadIsFirstArgMax(row);
    assert sorted[0].0 == m;
    RankedRowsDistinct(row, sorted);
    var r := RankRow(row, topN);
    assert forall a :: 0 <= a < |r| ==> r[a] == sorted[a + 1];
    if topN >= |row| - 1 {
      assert r == sorted[1..];
      forall i | 0 <= i < |row| && i != m ensures i in RowsOf(r) {
        var b :| 0 <= b < |sorted| && sorted[b] == (i, row[i]);
        assert b != 0;
        assert r[b - 1].0 == i;
      }
    }
  }

  /**
   * The row dropped is the first row holding the top score, not the query's
   * own row: when an earlier row ties the query's row at the top score, the
   * query's row is among the recommendations (given room for all others).
   */
  lemma TiedQueryRowIsRecommended(row: seq<int>, topN: int, q: nat, j: nat)
    requires j < q < |row| && row[j] == row[q]
    requires forall k :: 0 <= k < |row| ==> row[k] <= row[q]
    requires topN >= |row| - 1
    ensures q in RowsOf(RankRow(row, topN))
  {
  }

  /**
   * With a single earlier row tying the query's row at the top score, that
   * earlier row is the one dropped and the query's own row is the first
   * recommendation, for every `top_n` of at least 1.
   */
  lemma SoleEarlierTieIsFirstRecommendation(row: seq<int>, topN: int, q: nat, j: nat)
    requires j < q < |row| && row[j] == row[q]
    requires forall k :: 0 <= k < |row| ==> row[k] <= row[q]
    requires forall k :: 0 <= k < q && k != j ==> row[k] < row[q]
    requires topN >= 1
    ensures |RankRow(row, topN)| > 0 && RankRow(row, topN)[0] == (q, row[q])
  {
    var sorted, r := SortedScores(row), RankRow(row, topN);
    assert forall a :: 0 <= a < |r| ==> r[a] == sorted[a + 1];
    assert |r| > 0;
    SortedHeadIsFirstArgMax(row);
    assert IsFirstArgMax(row, j);
    assert sorted[0].0 == j;
    RankedRowsDistinct(row, sorted);
    var b :| 0 <= b < |sorted| && sorted[b] == (q, row[q]);
    assert b != 0;
    var second := sorted[1];
    assert second.0 != j && second.0 < |row| && second.1 == row[second.0];
    assert !Precedes(second, (q, row[q]));
    assert forall c :: 1 < c < |sorted| ==> Precedes(second, sorted[c]) && sorted[c] != (q, row[q]);
  }

  /**
   * A negative `top_n` is not rejected: the slice bound `top_n + 1` then counts
   * from the end, and for `top_n < -1` the ranking keeps all but the last
   * `-top_n - 1` of the remaining rows.
   */
  lemma NegativeTopN(row: seq<int>, topN: int)
    requires topN < 0 && |row| > 0
    ensures |RankRow(row, topN)| == (if topN == -1 then 0 else Max(0, |row| + topN))
  {
  }

  /**
   * `get_recommendations` once the model exists: `[]` when the title resolves to
   * no row; otherwise, for the ranked row indices of the query's similarity
   * row, the record at that index paired with its score.
   */
  function Recommendations(movies: seq<Movie>, sim: Matrix, movieTitle: string, topN: int): (r: seq<(Movie, int)>)
    requires IsSquare(sim, |movies|)
    ensures FindTitleRow(Titles(movies), movieTitle).None? ==> r == []
    ensures FindTitleRow(Titles(movies), movieTitle).Some? ==>
      var q := FindTitleRow(Titles(movies), movieTitle).value;
      var ranked := RankRow(sim[q], topN);
      && |r| == |ranked|
      && (forall k :: 0 <= k < |r| ==> r[k] == (movies[ranked[k].0], sim[q][ranked[k].0]))
      && (topN >= 0 ==> |r| == Min(topN, |movies| - 1))
    ensures forall a, b :: 0 <= a < b < |r| ==> r[a].1 >= r[b].1
  {
    match FindTitleRow(Titles(movies), movieTitle)
    case None => []
    case Some(q) =>
      var row := sim[q];
      assert |row| == |movies|;
      var ranked := RankRow(row, topN);
      var r := seq(|ranked|, k requires 0 <= k < |ranked| => (movies[ranked[k].0], ranked[k].1));
      assert forall k :: 0 <= k < |r| ==> r[k] == (movies[ranked[k].0], row[ranked[k].0]);
      assert FindTitleRow(Titles(movies), movieTitle).value == q;
      r
  }

  /** The recommendations for a title that resolves to row `q`, entry by entry. */
  lemma RecommendationsOfRow(movies: seq<Movie>, sim: Matrix, movieTitle: string, topN: int, q: nat)
    requires IsSquare(sim, |movies|)
    requires FindTitleRow(Titles(movies), movieTitle) == Some(q)
    ensures var r := Recommendations(movies, sim, movieTitle, topN);
      var ranked := RankRow(sim[q], topN);
      && |r| == |ranked|
      && forall k :: 0 <= k < |r| ==> r[k] == (movies[ranked[k].0], ranked[k].1)
  {
  }

  /** Titles that agree after lower-casing give identical recommendations. */
  lemma RecommendationsIgnoreCase(movies: seq<Movie>, sim: Matrix, t1: string, t2: string, topN: int)
    requires IsSquare(sim, |movies|)
    requires Lower(t1) == Lower(t2)
    ensures Recommendations(movies, sim, t1, topN) == Recommendations(movies, sim, t2, topN)
  {
  }

  /**
   * `get_movie_by_title`: the record of the first row whose title equals the
   * query ignoring case; failing that, of the first row whose title contains
   * it ignoring case; none when no title contains it.
   */
  function MovieByTitle(movies: seq<Movie>, title: string): (r: Option<Movie>)
    ensures r.None? <==> forall j :: 0 <= j < |movies| ==> !TitleContains(movies[j].title, title)
    ensures r.Some? ==> r.value in movies && TitleContains(r.value.title, title)
    ensures (exists j :: 0 <= j < |movies| && TitleEquals(movies[j].title, title)) ==>
      exists i :: 0 <= i < |movies| && r == Some(movies[i]) && TitleEquals(movies[i].title, title)
        && forall j :: 0 <= j < i ==> !TitleEquals(movies[j].title, title)
    ensures (forall j :: 0 <= j < |movies| ==> !TitleEquals(movies[j].title, title)) && r.Some? ==>
      exists i :: 0 <= i < |movies| && r == Some(movies[i])
        && forall j :: 0 <= j < i ==> !TitleContains(movies[j].title, title)
  {
    var titles := Titles(movies);
    FindTitleRowSpec(titles, title);
    match FindTitleRow(titles, title)
    case None => None
    case Some(i) =>
      ContainsSelfAndEmpty(Lower(title));
      assert (exists j :: 0 <= j < |movies| && TitleEquals(movies[j].title, title)) ==> TitleEquals(titles[i], title);
      Some(movies[i])
  }

  // ---------------------------------------------------------------------------
  // Catalogue queries
  // ---------------------------------------------------------------------------

  function Popularity(m: Movie): int { m.popularity }
  function VoteAverage(m: Movie): int { m.voteAverage }

  /** The least `vote_count` a movie needs to appear among the top rated. */
  const MinVotes := 100

  /** The rows whose title contains the query, ignoring case: every such row, as often as it occurs, in table order. */
  function SearchMatches(movies: seq<Movie>, query: string): (r: seq<Movie>)
    ensures forall m :: m in r ==> TitleContains(m.title, query)
    ensures forall m :: m in movies && TitleContains(m.title, query) ==> m in r
    ensures multiset(r) <= multiset(movies)
    ensures forall m :: multiset(r)[m] == if TitleContains(m.title, query) then multiset(movies)[m] else 0
    ensures IsSubsequence(r, movies)
  {
    var p := (m: Movie) => TitleContains(m.title, query);
    FilterCounts(movies, p);
    FilterIsSubsequence(movies, p);
    Filter(movies, p)
  }

  /** The rows with at least `MinVotes` votes: every such row, as often as it occurs, in table order. */
  function WellVoted(movies: seq<Movie>): (r: seq<Movie>)
    ensures forall m :: m in r ==> m.voteCount >= MinVotes
    ensures forall m :: m in movies && m.voteCount >= MinVotes ==> m in r
    ensures multiset(r) <= multiset(movies)
    ensures forall m :: multiset(r)[m] == if m.voteCount >= MinVotes then multiset(movies)[m] else 0
    ensures IsSubsequence(r, movies)
  {
    var p := (m: Movie) => m.voteCount >= MinVotes;
    FilterCounts(movies, p);
    FilterIsSubsequence(movies, p);
    Filter(movies, p)
  }

  /**
   * `search_movies`: the rows whose title contains the query ignoring case,
   * most popular first, at most `limit` of them, and no row left out is more
   * popular than one returned.
   */
  function SearchResults(movies: seq<Movie>, query: string, limit: int := 20): (r: seq<Movie>)
    ensures forall m :: m in r ==> TitleContains(m.title, query)
    ensures multiset(r) <= multiset(movies)
    ensures NonIncreasing(r, Popularity)
    ensures limit >= 0 ==> |r| == Min(limit, |SearchMatches(movies, query)|)
    ensures limit >= 0 ==> KeepsLargest(r, multiset(SearchMatches(movies, query)) - multiset(r), Popularity)
  {
    var matches := SearchMatches(movies, query);
    var r := PyTake(SortByKeyDesc(matches, Popularity), limit);
    TakeIsSubMultiset(SortByKeyDesc(matches, Popularity), limit);
    SubMultisetMembers(r, matches);
    if limit >= 0 then TopByKey(matches, Popularity, limit); r else r
  }

  /**
   * `get_trending_movies`: `min(limit, n)` rows, most popular first, and no row
   * left out is more popular than one returned.
   */
  function TrendingResults(movies: seq<Movie>, limit: int := 20): (r: seq<Movie>)
    ensures multiset(r) <= multiset(movies)
    ensures NonIncreasing(r, Popularity)
    ensures limit >= 0 ==> |r| == Min(limit, |movies|)
    ensures limit >= 0 ==> KeepsLargest(r, multiset(movies) - multiset(r), Popularity)
  {
    var r := PyTake(SortByKeyDesc(movies, Popularity), limit);
    if limit >= 0 then TopByKey(movies, Popularity, limit); r
    else TakeIsSubMultiset(SortByKeyDesc(movies, Popularity), limit); r
  }

  /**
   * `get_top_rated_movies`: only rows with at least 100 votes, highest
   * `vote_average` first, at most `limit` of them, and no qualifying row left
   * out is rated higher than one returned.
   */
  function TopRatedResults(movies: seq<Movie>, limit: int := 20): (r: seq<Movie>)
    ensures forall m :: m in r ==> m.voteCount >= MinVotes
    ensures multiset(r) <= multiset(movies)
    ensures NonIncreasing(r, VoteAverage)
    ensures limit >= 0 ==> |r| == Min(limit, |WellVoted(movies)|)
    ensures limit >= 0 ==> KeepsLargest(r, multiset(WellVoted(movies)) - multiset(r), VoteAverage)
  {
    var qualified := WellVoted(movies);
    var r := PyTake(SortByKeyDesc(qualified, VoteAverage), limit);
    TakeIsSubMultiset(SortByKeyDesc(qualified, VoteAverage), limit);
    SubMultisetMembers(r, qualified);
    if limit >= 0 then TopByKey(qualified, VoteAverage, limit); r else r
  }

  /** A prefix holds no more of any element than the whole list. */
  lemma TakeIsSubMultiset<T>(s: seq<T>, k: int)
    ensures multiset(PyTake(s, k)) <= multiset(s)
  {
    var r := PyTake(s, k);
    assert s == r + s[|r|..];
  }

  /** Every element of a sub-multiset of `s` is an element of `s`. */
  lemma SubMultisetMembers<T>(r: seq<T>, s: seq<T>)
    requires multiset(r) <= multiset(s)
    ensures forall x :: x in r ==> x in s
  {
    forall x | x in r ensures x in s {
      assert x in multiset(r);
    }
  }

  // ---------------------------------------------------------------------------
  // The engine object and its lazily filled fields
  // ---------------------------------------------------------------------------

  /**
   * Why an engine call raises: the vectorizer rejected the corpus, or the
   * table has no such column (a table loaded from an empty database has no
   * columns at all).
   */
  datatype EngineError = VectorizerError | MissingColumn(column: string)

  /** What the similarity library guarantees: a result only for a non-empty corpus, and then n by n. */
  ghost predicate SimilarityContract(similarity: seq<string> -> Option<Matrix>) {
    forall docs :: similarity(docs).Some? ==> |docs| > 0 && IsSquare(similarity(docs).value, |docs|)
  }

  /**
   * `MovieRecommender`: `df` is the table once loaded, `cosineSim` the matrix
   * once built. The database is handed to each call that may load it, and is
   * read only when the table is missing.
   */
  class MovieRecommender {
    var df: Option<seq<Movie>>
    var cosineSim: Option<Matrix>
    const similarity: seq<string> -> Option<Matrix>

    /** A built matrix is the library's matrix for the feature texts of the current table. */
    ghost predicate Valid()
      reads this
    {
      && SimilarityContract(similarity)
      && (cosineSim.Some? ==> df.Some? && cosineSim == similarity(FeatureTexts(df.value)))
    }

    constructor(similarity: seq<string> -> Option<Matrix>)
      requires SimilarityContract(similarity)
      ensures Valid()
      ensures df == None && cosineSim == None && this.similarity == similarity
    {
      df := None;
      cosineSim := None;
      this.similarity := similarity;
    }

    /** `load_movies_from_db`: the table becomes the database's rows, in order. */
    method LoadMoviesFromDb(db: seq<Movie>) returns (loaded: seq<Movie>)
      modifies this
      ensures df == Some(db) && loaded == db
      ensures cosineSim == old(cosineSim)
      ensures old(Valid()) && cosineSim.None? ==> Valid()
    {
      df := Some(db);
      loaded := db;
    }

    /**
     * `build_similarity_matrix`: (re)loads the table when it is missing or
     * empty, then asks the library for the matrix of the feature texts; the
     * call fails, leaving the matrix as it was, when the library raises.
     */
    method BuildSimilarityMatrix(db: seq<Movie>) returns (r: Result<(), EngineError>)
      requires Valid()
      modifies this
      ensures Valid()
      ensures df == Some(if old(df).None? || |old(df).value| == 0 then db else old(df).value)
      ensures r.Success? <==> similarity(FeatureTexts(df.value)).Some?
      ensures r.Success? ==> cosineSim == similarity(FeatureTexts(df.value))
      ensures r.Failure? ==> r.error == VectorizerError && cosineSim == old(cosineSim)
    {
      if df.None? || |df.value| == 0 {
        var _ := LoadMoviesFromDb(db);
      }
      var sim := similarity(FeatureTexts(df.value));
      if sim.None? {
        return Failure(VectorizerError);
      }
      cosineSim := sim;
      return Success(());
    }

    /**
     * `get_recommendations`: builds the matrix if there is none (failing when
     * that fails), then returns the ranked recommendations for the resolved
     * title, collected one by one; an unknown title gives an empty list.
     */
    method GetRecommendations(movieTitle: string, topN: int := 10, db: seq<Movie>)
      returns (r: Result<seq<(Movie, int)>, EngineError>)
      requires Valid()
      modifies this
      ensures Valid()
      ensures old(cosineSim).Some? ==> df == old(df) && cosineSim == old(cosineSim)
      ensures old(cosineSim).None? ==>
        df == Some(if old(df).None? || |old(df).value| == 0 then db else old(df).value)
      ensures r.Failure? <==> cosineSim.None?
      ensures old(cosineSim).None? ==> (r.Success? <==> similarity(FeatureTexts(df.value)).Some?)
      ensures r.Failure? ==> r.error == VectorizerError
      ensures r.Success? ==>
        && df.Some? && cosineSim.Some? && IsSquare(cosineSim.value, |df.value|)
        && r.value == Recommendations(df.value, cosineSim.value, movieTitle, topN)
    {
      if cosineSim.None? {
        var built := BuildSimilarityMatrix(db);
        if built.Failure? {
          return Failure(VectorizerError);
        }
      }
      var movies := df.value;
      var sim := cosineSim.value;
      assert IsSquare(sim, |movies|) by {
        assert |FeatureTexts(movies)| == |movies|;
      }
      var found := FindTitleRow(Titles(movies), movieTitle);
      if found.None? {
        return Success([]);
      }
      var q := found.value;
      var recommendations := CollectRecommendations(movies, RankRow(sim[q], topN));
      RecommendationsOfRow(movies, sim, movieTitle, topN, q);
      return Success(recommendations);
    }

    /** The `zip` loop of `get_recommendations`: each ranked row's record paired with its score. */
    static method CollectRecommendations(movies: seq<Movie>, ranked: seq<(nat, int)>)
      returns (recommendations: seq<(Movie, int)>)
      requires forall j :: 0 <= j < |ranked| ==> ranked[j].0 < |movies|
      ensures |recommendations| == |ranked|
      ensures forall j :: 0 <= j < |ranked| ==> recommendations[j] == (movies[ranked[j].0], ranked[j].1)
    {
      recommendations := [];
      var k := 0;
      while k < |ranked|
        invariant 0 <= k <= |ranked|
        invariant |recommendations| == k
        invariant forall j :: 0 <= j < k ==> recommendations[j] == (movies[ranked[j].0], ranked[j].1)
      {
        recommendations := recommendations + [(movies[ranked[k].0], ranked[k].1)];
        k := k + 1;
      }
    }

    /** The table a lazy getter works on: the current one, or the database's rows when there is none. */
    method EnsureLoaded(db: seq<Movie>) returns (movies: seq<Movie>)
      requires Valid()
      modifies this
      ensures Valid() && cosineSim == old(cosineSim)
      ensures df == Some(if old(df).None? then db else old(df).value) && movies == df.value
    {
      if df.None? {
        movies := LoadMoviesFromDb(db);
      } else {
        movies := df.value;
      }
    }

    /** `get_movie_by_title`: loads the table if missing; the resolved row, or none. */
    method GetMovieByTitle(title: string, db: seq<Movie>) returns (r: Result<Option<Movie>, EngineError>)
      requires Valid()
      modifies this
      ensures Valid() && cosineSim == old(cosineSim)
      ensures df == Some(if old(df).None? then db else old(df).value)
      ensures |df.value| == 0 ==> r == Failure(MissingColumn("title"))
      ensures |df.value| > 0 ==> r == Success(MovieByTitle(df.value, title))
    {
      var movies := EnsureLoaded(db);
      if |movies| == 0 {
        return Failure(MissingColumn("title"));
      }
      return Success(MovieByTitle(movies, title));
    }

    /** `search_movies`: loads the table if missing; see `SearchResults`. */
    method SearchMovies(query: string, db: seq<Movie>, limit: int := 20) returns (r: Result<seq<Movie>, EngineError>)
      requires Valid()
      modifies this
      ensures Valid() && cosineSim == old(cosineSim)
      ensures df == Some(if old(df).None? then db else old(df).value)
      ensures |df.value| == 0 ==> r == Failure(MissingColumn("title"))
      ensures |df.value| > 0 ==> r == Success(SearchResults(df.value, query, limit))
    {
      var movies := EnsureLoaded(db);
      if |movies| == 0 {
        return Failure(MissingColumn("title"));
      }
      return Success(SearchResults(movies, query, limit));
    }

    /** `get_trending_movies`: loads the table if missing; see `TrendingResults`. */
    method GetTrendingMovies(db: seq<Movie>, limit: int := 20) returns (r: Result<seq<Movie>, EngineError>)
      requires Valid()
      modifies this
      ensures Valid() && cosineSim == old(cosineSim)
      ensures df == Some(if old(df).None? then db else old(df).value)
      ensures |df.value| == 0 ==> r == Failure(MissingColumn("popularity"))
      ensures |df.value| > 0 ==> r == Success(TrendingResults(df.value, limit))
    {
      var movies := EnsureLoaded(db);
      if |movies| == 0 {
        return Failure(MissingColumn("popularity"));
      }
      return Success(TrendingResults(movies, limit));
    }

    /** `get_top_rated_movies`: loads the table if missing; see `TopRatedResults`. */
    method GetTopRatedMovies(db: seq<Movie>, limit: int := 20) returns (r: Result<seq<Movie>, EngineError>)
      requires Valid()
      modifies this
      ensures Valid() && cosineSim == old(cosineSim)
      ensures df == Some(if old(df).None? then db else old(df).value)
      ensures |df.value| == 0 ==> r == Failure(MissingColumn("vote_count"))
      ensures |df.value| > 0 ==> r == Success(TopRatedResults(df.value, limit))
    {
      var movies := EnsureLoaded(db);
      if |movies| == 0 {
        return Failure(MissingColumn("vote_count"));
      }
      return Success(TopRatedResults(movies, limit));
    }
  }
}

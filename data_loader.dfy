/**
 * `TMDbFetcher`: how the answers of the TMDb API are turned into movie
 * records. The API is a value here (`Tmdb`): its list pages and its per-movie
 * answers. A request that fails is answered with an empty object, so a failed
 * or missing page is an empty page and a failed detail request is `{}`.
 */
module DataLoader {
  import opened Wrappers
  import opened Seqs

  // ---------------------------------------------------------------------------
  // What the API answers
  // ---------------------------------------------------------------------------

  /** An entry of a `/movie/popular` or `/movie/top_rated` page. */
  datatype Summary = Summary(id: int, title: Option<string>)

  datatype Genre = Genre(id: int, name: string)
  datatype CastMember = CastMember(name: string)
  datatype CrewMember = CrewMember(job: Option<string>, name: Option<string>)

  /** A `/movie/{id}/credits` answer; a missing key is `None`. */
  datatype Credits = Credits(cast: Option<seq<CastMember>>, crew: Option<seq<CrewMember>>)

  /** An entry of a `/movie/{id}/videos` answer; `kind` is the `type` key. */
  datatype Video = Video(kind: Option<string>, site: Option<string>, key: Option<string>)

  /** A `/movie/{id}` answer; a missing key is `None`. */
  datatype Details = Details(
    id: Option<int>,
    title: Option<string>,
    originalTitle: Option<string>,
    overview: Option<string>,
    genres: Option<seq<Genre>>,
    releaseDate: Option<string>,
    voteAverage: Option<int>,
    voteCount: Option<int>,
    popularity: Option<int>,
    posterPath: Option<string>,
    backdropPath: Option<string>,
    runtime: Option<int>)

  /** The empty object a failed detail request gives. */
  const NoDetails := Details(None, None, None, None, None, None, None, None, None, None, None, None)

  /** The empty object a failed credits request gives. */
  const NoCredits := Credits(None, None)

  /**
   * The API during one run: page p of each list is entry p - 1, and the
   * per-movie answers are keyed by movie id.
   */
  datatype Tmdb = Tmdb(
    popular: seq<seq<Summary>>,
    topRated: seq<seq<Summary>>,
    details: map<int, Details>,
    credits: map<int, Credits>,
    videos: map<int, seq<Video>>)

  /** `fetch_popular_movies(page)`: the page's results, or none. */
  function PopularPage(api: Tmdb, page: int): seq<Summary> {
    if 1 <= page <= |api.popular| then api.popular[page - 1] else []
  }

  /** `fetch_top_rated_movies(page)`: the page's results, or none. */
  function TopRatedPage(api: Tmdb, page: int): seq<Summary> {
    if 1 <= page <= |api.topRated| then api.topRated[page - 1] else []
  }

  /** `fetch_movie_details(id)` */
  function DetailsOf(api: Tmdb, movieId: int): Details {
    if movieId in api.details then api.details[movieId] else NoDetails
  }

  /** `fetch_movie_credits(id)` */
  function CreditsOf(api: Tmdb, movieId: int): Credits {
    if movieId in api.credits then api.credits[movieId] else NoCredits
  }

  /** `fetch_movie_videos(id)` */
  function VideosOf(api: Tmdb, movieId: int): seq<Video> {
    if movieId in api.videos then api.videos[movieId] else []
  }

  // ---------------------------------------------------------------------------
  // Field extraction (`get_youtube_trailer`, `fetch_complete_movie_data`)
  // ---------------------------------------------------------------------------

  predicate IsYoutubeTrailer(v: Video) {
    v.kind == Some("Trailer") && v.site == Some("YouTube")
  }

  /** Entry `i` is a YouTube trailer and none before it is. */
  predicate FirstTrailerAt(videos: seq<Video>, i: int) {
    0 <= i < |videos| && IsYoutubeTrailer(videos[i]) && forall j :: 0 <= j < i ==> !IsYoutubeTrailer(videos[j])
  }

  /**
   * The trailer key: the `key` of the first YouTube trailer (which may itself
   * be missing), or none when there is no YouTube trailer.
   */
  function YoutubeTrailerKey(videos: seq<Video>): (key: Option<string>)
    ensures (forall i :: 0 <= i < |videos| ==> !IsYoutubeTrailer(videos[i])) ==> key.None?
    ensures forall i :: FirstTrailerAt(videos, i) ==> key == videos[i].key
    decreases |videos|
  {
    if |videos| == 0 then None
    else if IsYoutubeTrailer(videos[0]) then videos[0].key
    else
      var key := YoutubeTrailerKey(videos[1..]);
      assert forall i :: FirstTrailerAt(videos, i) ==> i > 0 && FirstTrailerAt(videos[1..], i - 1);
      key
  }

  /** `get_youtube_trailer`: scans the videos and returns at the first YouTube trailer. */
  method GetYoutubeTrailer(api: Tmdb, movieId: int) returns (key: Option<string>)
    ensures key == YoutubeTrailerKey(VideosOf(api, movieId))
  {
    var videos := VideosOf(api, movieId);
    var i := 0;
    while i < |videos|
      invariant 0 <= i <= |videos|
      invariant forall j :: 0 <= j < i ==> !IsYoutubeTrailer(videos[j])
    {
      if IsYoutubeTrailer(videos[i]) {
        assert FirstTrailerAt(videos, i);
        return videos[i].key;
      }
      i := i + 1;
    }
    return None;
  }

  predicate IsDirector(p: CrewMember) { p.job == Some("Director") }

  /** Crew entry `i` has the job "Director" and none before it has. */
  predicate FirstDirectorAt(crew: seq<CrewMember>, i: int) {
    0 <= i < |crew| && IsDirector(crew[i]) && forall j :: 0 <= j < i ==> !IsDirector(crew[j])
  }

  /** The name of the first crew entry whose job is "Director", or none. */
  function DirectorName(crew: seq<CrewMember>): (director: Option<string>)
    ensures (forall i :: 0 <= i < |crew| ==> !IsDirector(crew[i])) ==> director.None?
    ensures forall i :: FirstDirectorAt(crew, i) ==> director == crew[i].name
    decreases |crew|
  {
    if |crew| == 0 then None
    else if IsDirector(crew[0]) then crew[0].name
    else
      var director := DirectorName(crew[1..]);
      assert forall i :: FirstDirectorAt(crew, i) ==> i > 0 && FirstDirectorAt(crew[1..], i - 1);
      director
  }

  /** The director of a credits answer; none when it has no crew. */
  function DirectorOf(credits: Credits): (director: Option<string>)
    ensures credits.crew.None? ==> director.None?
    ensures credits.crew.Some? && (forall i :: 0 <= i < |credits.crew.value| ==> !IsDirector(credits.crew.value[i])) ==>
      director.None?
    ensures forall i :: credits.crew.Some? && FirstDirectorAt(credits.crew.value, i) ==> director == credits.crew.value[i].name
  {
    if credits.crew.Some? then DirectorName(credits.crew.value) else None
  }

  /** `[actor["name"] for actor in cast]` */
  function CastNames(cast: seq<CastMember>): (names: seq<string>)
    ensures |names| == |cast|
    ensures forall i :: 0 <= i < |cast| ==> names[i] == cast[i].name
  {
    seq(|cast|, i requires 0 <= i < |cast| => cast[i].name)
  }

  /** The actors: the names of the first five cast entries at most, in order; none without a cast. */
  function ActorsOf(credits: Credits): (actors: seq<string>)
    ensures credits.cast.None? ==> actors == []
    ensures credits.cast.Some? ==>
      && |actors| == Min(5, |credits.cast.value|)
      && forall i :: 0 <= i < |actors| ==> actors[i] == credits.cast.value[i].name
  {
    if credits.cast.Some? && |credits.cast.value| > 0 then CastNames(PyTake(credits.cast.value, 5)) else []
  }

  /** The genre names in order; none when the answer has no genres. */
  function GenreNames(genres: Option<seq<Genre>>): (names: seq<string>)
    ensures genres.None? ==> names == []
    ensures genres.Some? ==> |names| == |genres.value|
    ensures genres.Some? ==> forall i :: 0 <= i < |names| ==> names[i] == genres.value[i].name
  {
    match genres
    case None => []
    case Some(gs) => seq(|gs|, i requires 0 <= i < |gs| => gs[i].name)
  }

  /** The record `fetch_complete_movie_data` builds. */
  datatype MovieData = MovieData(
    tmdbId: Option<int>,
    title: Option<string>,
    originalTitle: Option<string>,
    overview: Option<string>,
    genres: seq<string>,
    releaseDate: string,
    voteAverage: int,
    voteCount: int,
    popularity: int,
    posterPath: Option<string>,
    backdropPath: Option<string>,
    trailerKey: Option<string>,
    actors: seq<string>,
    director: Option<string>,
    runtime: Option<int>)

  /**
   * The complete record for one movie id. Each detail field is read with
   * `.get(key, default)`: a present field is carried over, an absent numeric
   * field becomes 0, an absent release date "", absent genres no genres, and
   * every other absent field stays absent.
   */
  function CompleteMovieData(api: Tmdb, movieId: int): (data: MovieData)
    ensures var d := DetailsOf(api, movieId);
      && (d.voteAverage.None? ==> data.voteAverage == 0)
      && (d.voteAverage.Some? ==> data.voteAverage == d.voteAverage.value)
      && (d.voteCount.None? ==> data.voteCount == 0)
      && (d.voteCount.Some? ==> data.voteCount == d.voteCount.value)
      && (d.popularity.None? ==> data.popularity == 0)
      && (d.popularity.Some? ==> data.popularity == d.popularity.value)
      && (d.releaseDate.None? ==> data.releaseDate == "")
      && (d.releaseDate.Some? ==> data.releaseDate == d.releaseDate.value)
      && (d.genres.None? ==> data.genres == [])
      && data.tmdbId == d.id && data.title == d.title && data.overview == d.overview
      && data.posterPath == d.posterPath && data.backdropPath == d.backdropPath && data.runtime == d.runtime
      && data.originalTitle == d.originalTitle && data.genres == GenreNames(d.genres)
    ensures data.trailerKey == YoutubeTrailerKey(VideosOf(api, movieId))
    ensures data.actors == ActorsOf(CreditsOf(api, movieId)) && data.director == DirectorOf(CreditsOf(api, movieId))
  {
    var d := DetailsOf(api, movieId);
    var c := CreditsOf(api, movieId);
    MovieData(
      tmdbId := d.id,
      title := d.title,
      originalTitle := d.originalTitle,
      overview := d.overview,
      genres := GenreNames(d.genres),
      releaseDate := d.releaseDate.GetOr(""),
      voteAverage := d.voteAverage.GetOr(0),
      voteCount := d.voteCount.GetOr(0),
      popularity := d.popularity.GetOr(0),
      posterPath := d.posterPath,
      backdropPath := d.backdropPath,
      trailerKey := YoutubeTrailerKey(VideosOf(api, movieId)),
      actors := ActorsOf(c),
      director := DirectorOf(c),
      runtime := d.runtime)
  }

  /** A movie whose detail request failed still gives a record, made of defaults only. */
  lemma FailedDetailsGiveDefaults(api: Tmdb, movieId: int)
    requires movieId !in api.details
    ensures var data := CompleteMovieData(api, movieId);
      && data.tmdbId.None? && data.title.None? && data.overview.None?
      && data.genres == [] && data.releaseDate == ""
      && data.voteAverage == 0 && data.voteCount == 0 && data.popularity == 0
  {
  }

  /**
   * `fetch_complete_movie_data`: the details, credits and trailer of one
   * movie, with the director found by a scan that stops at the first match.
   */
  method FetchCompleteMovieData(api: Tmdb, movieId: int) returns (data: MovieData)
    ensures data == CompleteMovieData(api, movieId)
  {
    var details := DetailsOf(api, movieId);
    var credits := CreditsOf(api, movieId);
    var trailerKey := GetYoutubeTrailer(api, movieId);

    var actors: seq<string> := [];
    if credits.cast.Some? && |credits.cast.value| > 0 {
      actors := CastNames(PyTake(credits.cast.value, 5));
    }

    var director: Option<string> := None;
    if credits.crew.Some? && |credits.crew.value| > 0 {
      var crew := credits.crew.value;
      var i := 0;
      while i < |crew|
        invariant 0 <= i <= |crew|
        invariant director.None?
        invariant forall j :: 0 <= j < i ==> !IsDirector(crew[j])
      {
        if IsDirector(crew[i]) {
          assert FirstDirectorAt(crew, i);
          director := crew[i].name;
          break;
        }
        i := i + 1;
      }
    }

    var genres := GenreNames(details.genres);
    data := MovieData(
      tmdbId := details.id,
      title := details.title,
      originalTitle := details.originalTitle,
      overview := details.overview,
      genres := genres,
      releaseDate := details.releaseDate.GetOr(""),
      voteAverage := details.voteAverage.GetOr(0),
      voteCount := details.voteCount.GetOr(0),
      popularity := details.popularity.GetOr(0),
      posterPath := details.posterPath,
      backdropPath := details.backdropPath,
      trailerKey := trailerKey,
      actors := actors,
      director := director,
      runtime := details.runtime);
  }

  // ---------------------------------------------------------------------------
  // Collecting the list entries (`fetch_and_prepare_movies`)
  // ---------------------------------------------------------------------------

  /** The ids occurring in a list of entries (the `seen_ids` set). */
  function Ids(s: seq<Summary>): set<int>
    decreases |s|
  {
    if |s| == 0 then {} else Ids(s[..|s| - 1]) + {s[|s| - 1].id}
  }

  /** An id is in `Ids(s)` exactly when some entry of `s` carries it. */
  lemma {:induction false} IdsMembers(s: seq<Summary>, id: int)
    ensures id in Ids(s) <==> exists i :: 0 <= i < |s| && s[i].id == id
    decreases |s|
  {
    if |s| > 0 {
      var n := |s| - 1;
      IdsMembers(s[..n], id);
      if id in Ids(s[..n]) {
        var i :| 0 <= i < n && s[..n][i].id == id;
        assert s[i].id == id;
      } else if exists i :: 0 <= i < |s| && s[i].id == id {
        var i :| 0 <= i < |s| && s[i].id == id;
        if i < n {
          assert s[..n][i].id == id;
        }
      }
    }
  }

  lemma IdsAppend(s: seq<Summary>, x: Summary)
    ensures Ids(s + [x]) == Ids(s) + {x.id}
  {
  }

  /** No two entries share an id. */
  predicate NoDuplicateIds(s: seq<Summary>) {
    forall a, b :: 0 <= a < b < |s| ==> s[a].id != s[b].id
  }

  /**
   * One step of the inner loops: an entry is kept when its id is new and
   * fewer than `total` entries have been kept so far.
   */
  function Admit(acc: seq<Summary>, x: Summary, total: int): seq<Summary> {
    if x.id !in Ids(acc) && |acc| < total then acc + [x] else acc
  }

  /** The inner loop over one page: `Admit` each entry in order. */
  function AddNew(acc: seq<Summary>, page: seq<Summary>, total: int): seq<Summary>
    decreases |page|
  {
    if |page| == 0 then acc
    else Admit(AddNew(acc, page[..|page| - 1], total), page[|page| - 1], total)
  }

  /** One iteration of the outer loop: the popular page, then the top-rated page if still short. */
  function PageStep(api: Tmdb, total: int, acc: seq<Summary>, page: int): seq<Summary> {
    var afterPopular := AddNew(acc, PopularPage(api, page), total);
    if |afterPopular| < total then AddNew(afterPopular, TopRatedPage(api, page), total) else afterPopular
  }

  /** The entries collected after pages 1 to k. */
  function CollectThrough(api: Tmdb, total: int, k: nat): seq<Summary> {
    if k == 0 then [] else PageStep(api, total, CollectThrough(api, total, k - 1), k)
  }

  /** Whether the top-rated page of `page` is requested: the count is still short after its popular page. */
  predicate TopRatedRequested(api: Tmdb, total: int, page: nat) {
    page >= 1 && |AddNew(CollectThrough(api, total, page - 1), PopularPage(api, page), total)| < total
  }

  /** The pages among 1 to k whose top-rated page is requested, in increasing order. */
  function RequestedPages(api: Tmdb, total: int, k: nat): seq<nat> {
    if k == 0 then []
    else RequestedPages(api, total, k - 1) + (if TopRatedRequested(api, total, k) then [k] else [])
  }

  lemma RequestedPagesSpec(api: Tmdb, total: int, k: nat)
    ensures forall p: nat :: p in RequestedPages(api, total, k) <==> p <= k && TopRatedRequested(api, total, p)
  {
    forall p: nat ensures p in RequestedPages(api, total, k) <==> p <= k && TopRatedRequested(api, total, p) {
      RequestedPage(api, total, k, p);
    }
  }

  /** Page `p` is listed among pages 1 to k exactly when it is one of them and its top-rated page is requested. */
  lemma {:induction false} RequestedPage(api: Tmdb, total: int, k: nat, p: nat)
    ensures p in RequestedPages(api, total, k) <==> p <= k && TopRatedRequested(api, total, p)
  {
    if k > 0 {
      RequestedPage(api, total, k - 1, p);
      var step := if TopRatedRequested(api, total, k) then [k] else [];
      assert RequestedPages(api, total, k) == RequestedPages(api, total, k - 1) + step;
      assert p in step <==> p == k && TopRatedRequested(api, total, p);
    }
  }

  /** `(total // 20) + 1`; Dafny's `/` rounds down like Python's `//` for a positive divisor. */
  function PagesNeeded(total: int): (pages: int)
    ensures 20 * (pages - 1) <= total < 20 * pages
  {
    total / 20 + 1
  }

  /** Every list entry of pages 1 to k, in arrival order: per page, popular before top-rated. */
  function Arrivals(api: Tmdb, k: nat): seq<Summary> {
    if k == 0 then [] else Arrivals(api, k - 1) + PopularPage(api, k) + TopRatedPage(api, k)
  }

  /** Entry `i` is the first entry of `s` with its id. */
  predicate IsFirstOccurrence(s: seq<Summary>, i: int) {
    0 <= i < |s| && s[i].id !in Ids(s[..i])
  }

  lemma FirstOccurrenceInPrefix(s: seq<Summary>, n: nat, i: int)
    requires n <= |s| && 0 <= i < n
    ensures IsFirstOccurrence(s[..n], i) <==> IsFirstOccurrence(s, i)
  {
    assert s[..n][..i] == s[..i];
  }

  /** The first-occurrence positions of `s`, in increasing order: exactly those, and all of them. */
  function FirstPositions(s: seq<Summary>): (positions: seq<nat>)
    ensures forall k :: 0 <= k < |positions| ==> IsFirstOccurrence(s, positions[k])
    ensures forall a, b :: 0 <= a < b < |positions| ==> positions[a] < positions[b]
    ensures forall i :: IsFirstOccurrence(s, i) ==> i in positions
    decreases |s|
  {
    if |s| == 0 then []
    else
      var n := |s| - 1;
      var earlier := FirstPositions(s[..n]);
      forall i | 0 <= i < n ensures IsFirstOccurrence(s[..n], i) <==> IsFirstOccurrence(s, i) {
        FirstOccurrenceInPrefix(s, n, i);
      }
      assert s[..n][..n] == s[..n];
      if IsFirstOccurrence(s, n) then earlier + [n] else earlier
  }

  /** `s` with every entry whose id occurred earlier removed: the reference for what is collected. */
  function Dedup(s: seq<Summary>): (d: seq<Summary>)
    ensures |d| == |FirstPositions(s)|
    ensures forall k :: 0 <= k < |d| ==> d[k] == s[FirstPositions(s)[k]]
  {
    var positions := FirstPositions(s);
    seq(|positions|, k requires 0 <= k < |positions| => s[positions[k]])
  }

  /** Dedup keeps each entry at its id's first occurrence, so no id twice. */
  lemma DedupNoDuplicateIds(s: seq<Summary>)
    ensures NoDuplicateIds(Dedup(s))
  {
    var d, positions := Dedup(s), FirstPositions(s);
    forall a, b | 0 <= a < b < |d| ensures d[a].id != d[b].id {
      var i, j := positions[a], positions[b];
      assert IsFirstOccurrence(s, j) && i < j;
      assert s[..j][i] == s[i];
      IdsMembers(s[..j], s[i].id);
    }
  }

  /** How `Dedup` grows by one entry. */
  lemma DedupAppend(s: seq<Summary>, x: Summary)
    ensures x.id in Ids(s) ==> Dedup(s + [x]) == Dedup(s)
    ensures x.id !in Ids(s) ==> Dedup(s + [x]) == Dedup(s) + [x]
  {
  }

  /** `Dedup` keeps every id. */
  lemma {:induction false} DedupIds(s: seq<Summary>)
    ensures Ids(Dedup(s)) == Ids(s)
    decreases |s|
  {
    if |s| > 0 {
      var n := |s| - 1;
      var x := s[n];
      assert s == s[..n] + [x];
      DedupIds(s[..n]);
      DedupAppend(s[..n], x);
      IdsAppend(s[..n], x);
      if x.id !in Ids(s[..n]) {
        IdsAppend(Dedup(s[..n]), x);
      }
    }
  }

  /**
   * The cap that the admission test `len(movies) < total` enforces: the first
   * `total` entries, or all when fewer; a non-positive total admits nothing.
   */
  function FirstN(s: seq<Summary>, total: int): (r: seq<Summary>)
    ensures r <= s
    ensures |r| == Min(Max(total, 0), |s|)
  {
    s[..Min(Max(total, 0), |s|)]
  }

  /**
   * Admitting the entries of `s` one by one into an empty list gives the
   * first `total` entries of `Dedup(s)`.
   */
  lemma {:induction false} AddNewIsCappedDedup(s: seq<Summary>, total: int)
    ensures AddNew([], s, total) == FirstN(Dedup(s), total)
    decreases |s|
  {
    if |s| > 0 {
      var n := |s| - 1;
      var x := s[n];
      var prev := s[..n];
      assert s == prev + [x];
      AddNewIsCappedDedup(prev, total);
      var acc := AddNew([], prev, total);
      var d := Dedup(prev);
      DedupAppend(prev, x);
      var cap := Max(total, 0);
      if |d| < cap {
        assert acc == d;
        DedupIds(prev);
      } else {
        assert acc == d[..cap];
        assert Dedup(s)[..cap] == d[..cap];
      }
    }
  }

  /** Once `total` entries are kept, no further entry is admitted. */
  lemma {:induction false} AddNewSaturated(acc: seq<Summary>, page: seq<Summary>, total: int)
    requires |acc| >= total
    ensures AddNew(acc, page, total) == acc
    decreases |page|
  {
    if |page| > 0 {
      AddNewSaturated(acc, page[..|page| - 1], total);
    }
  }

  /** Admitting two lists in turn is admitting their concatenation. */
  lemma {:induction false} AddNewAppend(acc: seq<Summary>, s: seq<Summary>, t: seq<Summary>, total: int)
    ensures AddNew(acc, s + t, total) == AddNew(AddNew(acc, s, total), t, total)
    decreases |t|
  {
    if |t| == 0 {
      assert s + t == s;
    } else {
      var m := |t| - 1;
      assert (s + t)[..|s + t| - 1] == s + t[..m];
      assert (s + t)[|s + t| - 1] == t[m];
      AddNewAppend(acc, s, t[..m], total);
    }
  }

  /**
   * Skipping the top-rated page once the count reached `total` changes
   * nothing: the pages collected are the arrivals admitted one by one.
   */
  lemma {:induction false} CollectThroughIsArrivals(api: Tmdb, total: int, k: nat)
    ensures CollectThrough(api, total, k) == AddNew([], Arrivals(api, k), total)
  {
    if k > 0 {
      CollectThroughIsArrivals(api, total, k - 1);
      var before, prev := Arrivals(api, k - 1), CollectThrough(api, total, k - 1);
      var popular, topRated := PopularPage(api, k), TopRatedPage(api, k);
      AddNewAppend([], before, popular, total);
      var afterPopular := AddNew(prev, popular, total);
      assert afterPopular == AddNew([], before + popular, total);
      AddNewAppend([], before + popular, topRated, total);
      if |afterPopular| >= total {
        AddNewSaturated(afterPopular, topRated, total);
      }
      assert CollectThrough(api, total, k) == PageStep(api, total, prev, k);
    }
  }

  /**
   * What is collected after k pages: the first `total` distinct-id entries in
   * arrival order, each the first entry with its id, never two with the same
   * id and never more than `total`.
   */
  lemma CollectedEntries(api: Tmdb, total: int, k: nat)
    ensures CollectThrough(api, total, k) == FirstN(Dedup(Arrivals(api, k)), total)
    ensures NoDuplicateIds(CollectThrough(api, total, k))
    ensures |CollectThrough(api, total, k)| <= Max(total, 0)
  {
    CollectThroughIsArrivals(api, total, k);
    AddNewIsCappedDedup(Arrivals(api, k), total);
    DedupNoDuplicateIds(Arrivals(api, k));
  }

  /** While fewer than `total` entries are collected, every id that arrived is among them. */
  lemma ShortCollectionKeepsEveryId(api: Tmdb, total: int, k: nat)
    requires |CollectThrough(api, total, k)| < total
    ensures Ids(CollectThrough(api, total, k)) == Ids(Arrivals(api, k))
  {
    CollectedEntries(api, total, k);
    var d := Dedup(Arrivals(api, k));
    assert CollectThrough(api, total, k) == d[..|d|] == d;
    DedupIds(Arrivals(api, k));
  }

  /** The inner loop over one page, keeping `seen_ids` equal to the ids collected. */
  method AddPage(movies: seq<Summary>, seenIds: set<int>, page: seq<Summary>, total: int)
    returns (collected: seq<Summary>, seen: set<int>)
    requires seenIds == Ids(movies)
    ensures collected == AddNew(movies, page, total)
    ensures seen == Ids(collected)
  {
    collected, seen := movies, seenIds;
    var i := 0;
    while i < |page|
      invariant 0 <= i <= |page|
      invariant collected == AddNew(movies, page[..i], total)
      invariant seen == Ids(collected)
    {
      var movie := page[i];
      assert page[..i + 1][..i] == page[..i];
      if movie.id !in seen && |collected| < total {
        IdsAppend(collected, movie);
        seen := seen + {movie.id};
        collected := collected + [movie];
      }
      i := i + 1;
    }
    assert page[..|page|] == page;
  }

  /**
   * One iteration of the page walk: the popular page, then the top-rated page
   * when the count is still short of `total`.
   */
  method VisitPage(api: Tmdb, total: int, page: nat, movies: seq<Summary>, seenIds: set<int>)
    returns (collected: seq<Summary>, seen: set<int>, requestedTopRated: bool)
    requires page >= 1
    requires movies == CollectThrough(api, total, page - 1) && seenIds == Ids(movies)
    ensures collected == CollectThrough(api, total, page) && seen == Ids(collected)
    ensures requestedTopRated <==> TopRatedRequested(api, total, page)
    ensures RequestedPages(api, total, page) ==
      RequestedPages(api, total, page - 1) + (if requestedTopRated then [page] else [])
  {
    collected, seen := AddPage(movies, seenIds, PopularPage(api, page), total);
    requestedTopRated := |collected| < total;
    if requestedTopRated {
      collected, seen := AddPage(collected, seen, TopRatedPage(api, page), total);
    }
  }

  /**
   * The page walk of `fetch_and_prepare_movies`: pages 1 to `total // 20 + 1`,
   * stopping after the first page at which `total` entries are collected.
   * Also returns how many pages were visited and which top-rated pages were
   * requested.
   */
  method CollectPages(api: Tmdb, total: int)
    returns (movies: seq<Summary>, pagesVisited: nat, topRatedPages: seq<nat>)
    ensures movies == CollectThrough(api, total, pagesVisited)
    ensures total >= 0 ==> pagesVisited >= 1
    ensures pagesVisited <= Max(0, PagesNeeded(total))
    ensures forall p :: 1 <= p < pagesVisited ==> |CollectThrough(api, total, p)| < total
    ensures pagesVisited < PagesNeeded(total) ==> |movies| >= total
    ensures topRatedPages == RequestedPages(api, total, pagesVisited)
  {
    movies := [];
    var seenIds: set<int> := {};
    var pagesNeeded := PagesNeeded(total);
    pagesVisited := 0;
    topRatedPages := [];

    var page := 1;
    while page <= pagesNeeded
      invariant 1 <= page && pagesVisited == page - 1
      invariant page - 1 <= Max(0, pagesNeeded)
      invariant movies == CollectThrough(api, total, pagesVisited)
      invariant seenIds == Ids(movies)
      invariant forall p :: 1 <= p < page ==> |CollectThrough(api, total, p)| < total
      invariant topRatedPages == RequestedPages(api, total, pagesVisited)
      decreases pagesNeeded - page
    {
      var requested;
      movies, seenIds, requested := VisitPage(api, total, page, movies, seenIds);
      if requested {
        topRatedPages := topRatedPages + [page];
      }
      pagesVisited := page;
      if |movies| >= total {
        break;
      }
      assert |CollectThrough(api, total, page)| < total;
      page := page + 1;
    }
  }

  /** The detail loop of `fetch_and_prepare_movies`: one complete record per entry, in order. */
  method FetchAll(api: Tmdb, movies: seq<Summary>) returns (complete: seq<MovieData>)
    ensures |complete| == |movies|
    ensures forall i :: 0 <= i < |movies| ==> complete[i] == CompleteMovieData(api, movies[i].id)
  {
    complete := [];
    var i := 0;
    while i < |movies|
      invariant 0 <= i <= |movies|
      invariant |complete| == i
      invariant forall j :: 0 <= j < i ==> complete[j] == CompleteMovieData(api, movies[j].id)
    {
      var data := FetchCompleteMovieData(api, movies[i].id);
      complete := complete + [data];
      i := i + 1;
    }
  }

  /**
   * `fetch_and_prepare_movies`: collects the entries page by page, then
   * fetches one complete record for each of the first `total` of them.
   */
  method FetchAndPrepareMovies(api: Tmdb, total: int := 1000)
    returns (complete: seq<MovieData>, pagesVisited: nat, topRatedPages: seq<nat>)
    ensures total >= 0 ==> pagesVisited >= 1
    ensures pagesVisited <= Max(0, PagesNeeded(total))
    ensures forall p :: 1 <= p < pagesVisited ==> |CollectThrough(api, total, p)| < total
    ensures pagesVisited < PagesNeeded(total) ==> |CollectThrough(api, total, pagesVisited)| >= total
    ensures forall p: nat :: p in topRatedPages <==> p <= pagesVisited && TopRatedRequested(api, total, p)
    ensures var movies := CollectThrough(api, total, pagesVisited);
      && |complete| == |movies|
      && forall i :: 0 <= i < |movies| ==> complete[i] == CompleteMovieData(api, movies[i].id)
  {
    var movies;
    movies, pagesVisited, topRatedPages := CollectPages(api, total);
    CollectedEntries(api, total, pagesVisited);
    RequestedPagesSpec(api, total, pagesVisited);
    var toFetch := PyTake(movies, total);
    assert toFetch == movies;
    complete := FetchAll(api, toFetch);
  }
}

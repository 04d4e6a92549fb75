/**
 * The HTTP layer's own logic: full image and trailer URLs (`ImageUrlHelper`),
 * adding them to a movie dictionary (`enrich_movie_data`), the shape of the
 * `/recommend` response and the `/stats` status.
 */
module MovieRoutes {
  import opened Wrappers
  import opened Recommender

  // ---------------------------------------------------------------------------
  // `ImageUrlHelper`
  // ---------------------------------------------------------------------------

  const ImageBaseUrl := "https://image.tmdb.org/t/p"
  const YoutubeWatchUrl := "https://www.youtube.com/watch?v="

  /** Python truthiness of an optional string: present and non-empty. */
  predicate Truthy(s: Option<string>) { s.Some? && |s.value| > 0 }

  /** What comes before the path in an image URL of the given size. */
  function ImagePrefix(size: string): string { ImageBaseUrl + "/" + size }

  /** `get_poster_url`: none for a missing or empty path, else base, "/", size and path with no separator before the path. */
  function PosterUrl(path: Option<string>, size: string := "w500"): (url: Option<string>)
    ensures url.None? <==> !Truthy(path)
    ensures url.Some? ==> url.value == ImagePrefix(size) + path.value
  {
    if !Truthy(path) then None else Some(ImageBaseUrl + "/" + size + path.value)
  }

  /** `get_backdrop_url`: as `get_poster_url`, with the default size "w1280". */
  function BackdropUrl(path: Option<string>, size: string := "w1280"): (url: Option<string>)
    ensures url.None? <==> !Truthy(path)
    ensures url.Some? ==> url.value == ImagePrefix(size) + path.value
  {
    if !Truthy(path) then None else Some(ImageBaseUrl + "/" + size + path.value)
  }

  /** `get_trailer_url`: none for a missing or empty key, else the YouTube watch URL of the key. */
  function TrailerUrl(key: Option<string>): (url: Option<string>)
    ensures url.None? <==> !Truthy(key)
    ensures url.Some? ==> url.value == YoutubeWatchUrl + key.value
  {
    if !Truthy(key) then None else Some(YoutubeWatchUrl + key.value)
  }

  /** The rest of `url` after `prefix`, if `url` starts with it. */
  function StripPrefix(url: string, prefix: string): (rest: Option<string>)
    ensures rest.Some? <==> prefix <= url
    ensures rest.Some? ==> url == prefix + rest.value
  {
    if prefix <= url then
      assert url == prefix + url[|prefix|..];
      Some(url[|prefix|..])
    else None
  }

  /** The path of an image URL is recovered by removing the size's prefix. */
  lemma ImageUrlRoundTrip(path: string, size: string)
    requires |path| > 0
    ensures StripPrefix(PosterUrl(Some(path), size).value, ImagePrefix(size)) == Some(path)
    ensures StripPrefix(BackdropUrl(Some(path), size).value, ImagePrefix(size)) == Some(path)
  {
  }

  /** Every URL longer than a size's prefix that starts with it is the image URL of what follows the prefix. */
  lemma ImageUrlFromPrefix(url: string, size: string)
    requires ImagePrefix(size) <= url && |url| > |ImagePrefix(size)|
    ensures PosterUrl(StripPrefix(url, ImagePrefix(size)), size) == Some(url)
    ensures BackdropUrl(StripPrefix(url, ImagePrefix(size)), size) == Some(url)
  {
  }

  /** The trailer key is recovered from a trailer URL by removing the watch prefix. */
  lemma TrailerUrlRoundTrip(key: string)
    requires |key| > 0
    ensures StripPrefix(TrailerUrl(Some(key)).value, YoutubeWatchUrl) == Some(key)
  {
  }

  /**
   * With no separator before the path, a path without its leading "/" can
   * give the same URL as another size and path.
   */
  lemma MissingSeparatorCollision()
    ensures PosterUrl(Some("0/x.jpg"), "w50") == PosterUrl(Some("/x.jpg"), "w500")
  {
    assert ImageBaseUrl + "/" + "w50" + "0/x.jpg" == ImageBaseUrl + "/" + "w500" + "/x.jpg";
  }

  // ---------------------------------------------------------------------------
  // `enrich_movie_data`
  // ---------------------------------------------------------------------------

  /** A value of a movie dictionary. */
  datatype Value = Null | Str(s: string) | Int(n: int) | StrList(items: seq<string>)

  /** A movie dictionary; `enrich_movie_data` changes it in place. */
  class MovieDict {
    var entries: map<string, Value>

    constructor(entries: map<string, Value>)
      ensures this.entries == entries
    {
      this.entries := entries;
    }
  }

  /** `d.get(key)` for a key whose value is a string or null: none when absent or null. */
  function TextAt(entries: map<string, Value>, key: string): Option<string> {
    if key in entries && entries[key].Str? then Some(entries[key].s) else None
  }

  /** The keys the URLs are derived from hold strings or null. */
  predicate UrlSourcesAreText(entries: map<string, Value>) {
    && ("poster_path" in entries ==> entries["poster_path"].Null? || entries["poster_path"].Str?)
    && ("backdrop_path" in entries ==> entries["backdrop_path"].Null? || entries["backdrop_path"].Str?)
    && ("trailer_key" in entries ==> entries["trailer_key"].Null? || entries["trailer_key"].Str?)
  }

  /** An optional string as a dictionary value: `None` is null. */
  function FromOption(o: Option<string>): Value {
    match o
    case None => Null
    case Some(s) => Str(s)
  }

  predicate IsUrlKey(key: string) {
    key == "poster_url" || key == "backdrop_url" || key == "trailer_url"
  }

  /**
   * The dictionary after `enrich_movie_data`: exactly the three URL keys are
   * set, each null when its source key is missing, null or empty and otherwise
   * the URL of the source value; every other key keeps its value.
   */
  function Enriched(entries: map<string, Value>): (r: map<string, Value>)
    requires UrlSourcesAreText(entries)
    ensures r.Keys == entries.Keys + {"poster_url", "backdrop_url", "trailer_url"}
    ensures forall key :: key in entries && !IsUrlKey(key) ==> r[key] == entries[key]
    ensures var path := TextAt(entries, "poster_path");
      r["poster_url"] == if Truthy(path) then Str(ImagePrefix("w500") + path.value) else Null
    ensures var path := TextAt(entries, "backdrop_path");
      r["backdrop_url"] == if Truthy(path) then Str(ImagePrefix("w1280") + path.value) else Null
    ensures var key := TextAt(entries, "trailer_key");
      r["trailer_url"] == if Truthy(key) then Str(YoutubeWatchUrl + key.value) else Null
  {
    entries["poster_url" := FromOption(PosterUrl(TextAt(entries, "poster_path")))]
           ["backdrop_url" := FromOption(BackdropUrl(TextAt(entries, "backdrop_path")))]
           ["trailer_url" := FromOption(TrailerUrl(TextAt(entries, "trailer_key")))]
  }

  /** Enriching twice gives what enriching once gives: the URL keys depend only on keys enrichment leaves alone. */
  lemma EnrichIdempotent(entries: map<string, Value>)
    requires UrlSourcesAreText(entries)
    ensures UrlSourcesAreText(Enriched(entries))
    ensures Enriched(Enriched(entries)) == Enriched(entries)
  {
  }

  /** `enrich_movie_data` on a dictionary: sets the three URL keys in place and returns the same dictionary. */
  method EnrichMovieData(movie: MovieDict) returns (r: MovieDict)
    requires UrlSourcesAreText(movie.entries)
    modifies movie
    ensures r == movie
    ensures movie.entries == Enriched(old(movie.entries))
  {
    var entries := movie.entries;
    movie.entries := movie.entries["poster_url" := FromOption(PosterUrl(TextAt(entries, "poster_path")))];
    movie.entries := movie.entries["backdrop_url" := FromOption(BackdropUrl(TextAt(entries, "backdrop_path")))];
    movie.entries := movie.entries["trailer_url" := FromOption(TrailerUrl(TextAt(entries, "trailer_key")))];
    return movie;
  }

  /** The columns of the movie table, one dictionary key each. */
  const MovieColumns: set<string> := {
    "id", "tmdb_id", "title", "original_title", "overview", "genres", "release_date", "vote_average",
    "vote_count", "popularity", "poster_path", "backdrop_path", "trailer_key", "actors", "director", "runtime"}

  /** `df.iloc[i].to_dict()` for one row of the movie table: one key per column. */
  function MovieToEntries(m: Movie): (entries: map<string, Value>)
    ensures UrlSourcesAreText(entries)
    ensures TextAt(entries, "poster_path") == m.posterPath
    ensures TextAt(entries, "backdrop_path") == m.backdropPath
    ensures TextAt(entries, "trailer_key") == m.trailerKey
  {
    map[
      "id" := Int(m.id),
      "tmdb_id" := Int(m.tmdbId),
      "title" := Str(m.title),
      "original_title" := FromOption(m.originalTitle),
      "overview" := FromOption(m.overview),
      "genres" := (if m.genres.Some? then StrList(m.genres.value) else Null),
      "release_date" := FromOption(m.releaseDate),
      "vote_average" := Int(m.voteAverage),
      "vote_count" := Int(m.voteCount),
      "popularity" := Int(m.popularity),
      "poster_path" := FromOption(m.posterPath),
      "backdrop_path" := FromOption(m.backdropPath),
      "trailer_key" := FromOption(m.trailerKey),
      "actors" := (if m.actors.Some? then StrList(m.actors.value) else Null),
      "director" := FromOption(m.director),
      "runtime" := (if m.runtime.Some? then Int(m.runtime.value) else Null)
    ]
  }

  /** The dictionary has exactly one key per column of the table. */
  lemma MovieToEntriesKeys(m: Movie)
    ensures MovieToEntries(m).Keys == MovieColumns
  {
  }

  /** No column is lost: two rows with the same dictionary are the same row. */
  lemma MovieToEntriesInjective(m1: Movie, m2: Movie)
    requires MovieToEntries(m1) == MovieToEntries(m2)
    ensures m1 == m2
  {
    SameEntriesSameNumbers(m1, m2);
    SameEntriesSameTexts(m1, m2);
    SameEntriesSamePaths(m1, m2);
    SameEntriesSameLists(m1, m2);
  }

  lemma SameEntriesSameNumbers(m1: Movie, m2: Movie)
    requires MovieToEntries(m1) == MovieToEntries(m2)
    ensures m1.tmdbId == m2.tmdbId && m1.voteAverage == m2.voteAverage
    ensures m1.voteCount == m2.voteCount && m1.popularity == m2.popularity
  {
    var e1, e2 := MovieToEntries(m1), MovieToEntries(m2);
    assert e1["tmdb_id"] == e2["tmdb_id"] && e1["vote_average"] == e2["vote_average"];
    assert e1["vote_count"] == e2["vote_count"] && e1["popularity"] == e2["popularity"];
  }

  lemma SameEntriesSameTexts(m1: Movie, m2: Movie)
    requires MovieToEntries(m1) == MovieToEntries(m2)
    ensures m1.originalTitle == m2.originalTitle && m1.overview == m2.overview
    ensures m1.releaseDate == m2.releaseDate && m1.director == m2.director
  {
    var e1, e2 := MovieToEntries(m1), MovieToEntries(m2);
    assert e1["original_title"] == e2["original_title"] && e1["overview"] == e2["overview"];
    assert e1["release_date"] == e2["release_date"] && e1["director"] == e2["director"];
  }

  lemma SameEntriesSamePaths(m1: Movie, m2: Movie)
    requires MovieToEntries(m1) == MovieToEntries(m2)
    ensures m1.posterPath == m2.posterPath && m1.backdropPath == m2.backdropPath && m1.trailerKey == m2.trailerKey
    ensures m1.id == m2.id && m1.title == m2.title
  {
    var e1, e2 := MovieToEntries(m1), MovieToEntries(m2);
    assert e1["id"] == e2["id"] && e1["title"] == e2["title"];
    assert e1["poster_path"] == e2["poster_path"] && e1["backdrop_path"] == e2["backdrop_path"];
    assert e1["trailer_key"] == e2["trailer_key"];
  }

  lemma SameEntriesSameLists(m1: Movie, m2: Movie)
    requires MovieToEntries(m1) == MovieToEntries(m2)
    ensures m1.genres == m2.genres && m1.actors == m2.actors && m1.runtime == m2.runtime
  {
    var e1, e2 := MovieToEntries(m1), MovieToEntries(m2);
    assert e1["genres"] == e2["genres"] && e1["actors"] == e2["actors"] && e1["runtime"] == e2["runtime"];
  }

  // ---------------------------------------------------------------------------
  // `/recommend` and `/stats`
  // ---------------------------------------------------------------------------

  /** One entry of the `/recommend` response. */
  datatype RecommendItem = RecommendItem(movie: map<string, Value>, similarityScore: int)

  /** What the handler's `try` block can raise. */
  datatype RouteException =
    | HttpException(status: int, detail: string)
    | EngineException(error: EngineError)

  /** The error a client receives: a status and the exception the detail was made from. */
  datatype HttpError = HttpError(status: int, cause: RouteException)

  /** The detail of the 404 the handler raises for an empty result. */
  function NotFoundDetail(movieTitle: string): string {
    "Movie '" + movieTitle + "' not found"
  }

  /** The formatting loop: one item per recommendation, same order, the movie enriched. */
  method FormatRecommendations(recommendations: seq<(Movie, int)>) returns (response: seq<RecommendItem>)
    ensures |response| == |recommendations|
    ensures forall i :: 0 <= i < |recommendations| ==>
      response[i] == RecommendItem(Enriched(MovieToEntries(recommendations[i].0)), recommendations[i].1)
  {
    response := [];
    var i := 0;
    while i < |recommendations|
      invariant 0 <= i <= |recommendations|
      invariant |response| == i
      invariant forall j :: 0 <= j < i ==>
        response[j] == RecommendItem(Enriched(MovieToEntries(recommendations[j].0)), recommendations[j].1)
    {
      var (movieData, score) := recommendations[i];
      var movieDict := new MovieDict(MovieToEntries(movieData));
      var enriched := EnrichMovieData(movieDict);
      response := response + [RecommendItem(enriched.entries, score)];
      i := i + 1;
    }
  }

  /**
   * `POST /recommend`: the engine's recommendations, formatted. An empty list
   * raises a 404 inside the `try`, and the `except Exception` around it turns
   * that, like any engine failure, into a 500 whose detail is the exception.
   */
  method RecommendRoute(engine: MovieRecommender, movieTitle: string, topN: int := 10, db: seq<Movie>)
    returns (response: Result<seq<RecommendItem>, HttpError>)
    requires engine.Valid()
    modifies engine
    ensures engine.Valid()
    ensures old(engine.cosineSim).Some? ==> engine.df == old(engine.df) && engine.cosineSim == old(engine.cosineSim)
    ensures old(engine.cosineSim).None? ==>
      && engine.df == Some(if old(engine.df).None? || |old(engine.df).value| == 0 then db else old(engine.df).value)
      && (engine.cosineSim.Some? <==> engine.similarity(FeatureTexts(engine.df.value)).Some?)
    ensures engine.cosineSim.None? ==> response == Failure(HttpError(500, EngineException(VectorizerError)))
    ensures engine.cosineSim.Some? ==>
      && engine.df.Some? && IsSquare(engine.cosineSim.value, |engine.df.value|)
      && var recommendations := Recommendations(engine.df.value, engine.cosineSim.value, movieTitle, topN);
      && (|recommendations| == 0 ==>
            response == Failure(HttpError(500, HttpException(404, NotFoundDetail(movieTitle)))))
      && (|recommendations| > 0 ==>
            && response.Success?
            && |response.value| == |recommendations|
            && forall i :: 0 <= i < |recommendations| ==>
                 response.value[i] == RecommendItem(Enriched(MovieToEntries(recommendations[i].0)), recommendations[i].1))
  {
    var raised: Option<RouteException> := None;
    var formatted: seq<RecommendItem> := [];
    var result := engine.GetRecommendations(movieTitle, topN, db);
    if result.Failure? {
      raised := Some(EngineException(result.error));
    } else if |result.value| == 0 {
      raised := Some(HttpException(404, NotFoundDetail(movieTitle)));
    } else {
      formatted := FormatRecommendations(result.value);
    }
    if raised.Some? {
      return Failure(HttpError(500, raised.value));
    }
    return Success(formatted);
  }

  /** The `/stats` response. */
  datatype Stats = Stats(totalMovies: int, status: string)

  /** `GET /stats`: the count, and "active" exactly when it is positive, else "empty". */
  function StatsResponse(totalMovies: int): (r: Stats)
    ensures r.totalMovies == totalMovies
    ensures r.status == "active" <==> totalMovies > 0
    ensures r.status == "empty" <==> totalMovies <= 0
  {
    Stats(totalMovies, if totalMovies > 0 then "active" else "empty")
  }
}

# Movie recommender core in Dafny

This project models the core of a content-based movie recommender. The
original is a FastAPI backend with a TMDb loader.

- **`Recommender`** models the `MovieRecommender` engine:
  - the feature text built for each movie;
  - case-insensitive title resolution, an exact match first and then a substring match;
  - ranking of one row of the similarity matrix: a stable sort by descending score, the first element dropped, `top_n` kept under Python's slice rules;
  - the search, trending and top-rated queries;
  - the lazily loaded table `df` and the lazily built matrix `cosine_sim`.

  The engine is a class with those two fields. The database is passed to each call that may load it. The TF-IDF and cosine library is an abstract function from the list of feature texts to an n-by-n matrix, or to nothing when the library raises.
- **`DataLoader`** models `TMDbFetcher`. The API is a value: its list pages and its per-movie answers. The model covers:
  - the page walk of `fetch_and_prepare_movies`, which deduplicates by id, caps at `total` and stops early;
  - the detail loop;
  - the extraction of the trailer key, actors, director and genres, with their defaults.
- **`MovieRoutes`** models the HTTP layer's own logic:
  - the image and trailer URL helpers;
  - `enrich_movie_data`, which mutates a dictionary (a class holding a map);
  - the `/recommend` response, including how its own 404 is caught and re-raised as a 500;
  - the `/stats` status.
- **`Text`** models the Python string operations used: ASCII `lower`, literal `in`, `join` and `*`.
- **`Seqs`** models the list operations used: slicing, first index, mask filter and a stable descending sort with top-k lemmas.
- **`Wrappers`** holds `Option` and `Result`.

The model follows the code, including where it behaves unexpectedly:

- Recommendation falls back to a substring title match.
- The element dropped from the ranking is the first element after sorting, not the query's own row. A tie at the top can put the query movie in its own recommendations and drop another movie.
- `top_n <= 0` is not an error. It is a Python slice: `0` gives nothing, and negative values count from the end.
- An unknown title gives an empty list, which the route turns into a 500.

## Model

| member | source | states |
|---|---|---|
| Text.Lower | backend/app/services/recommender.py:97 | lower-casing keeps the length and maps each character on its own (ASCII letters to lower case) |
| Text.ContainsAt | backend/app/services/recommender.py:100 | the substring test holds exactly when the needle occurs at some position of the title |
| Text.ContainsSelfAndEmpty | backend/app/services/recommender.py:100 | every string contains itself and the empty string |
| Text.JoinLength | backend/app/services/recommender.py:53 | a join is as long as its parts plus one separator between each pair of neighbours |
| Text.Repeat | backend/app/services/recommender.py:37 | `s * n` is n back-to-back copies of s: length n·|s|, starts with s, periodic with period |s| |
| Seqs.PySlice | backend/app/services/recommender.py:109 | a slice is the stretch between the two bounds after Python's clamping of negative and out-of-range bounds |
| Seqs.PyTake | backend/app/services/recommender.py:150 | `head(k)` is the first min(k, n) elements, and for negative k all but the last -k |
| Seqs.FirstIndex | backend/app/services/recommender.py:97 | the index found satisfies the test and none before it does; none is found exactly when no element satisfies it |
| Seqs.Filter | backend/app/services/recommender.py:143-145 | a mask selection keeps only elements passing the test, keeps every passing element, and holds no more of each than the input |
| Seqs.FilterCounts | backend/app/services/recommender.py:143-145 | each passing element is kept exactly as often as it occurs, and nothing else |
| Seqs.FilterIsSubsequence | backend/app/services/recommender.py:143-145 | the kept elements are read from the input at increasing positions, so table order is kept |
| Seqs.SortByKeyDesc | backend/app/services/recommender.py:148 | sorting is a permutation into non-increasing key order |
| Seqs.TopByKey | backend/app/services/recommender.py:148-150 | the first k after sorting are min(k, n) elements of the input, non-increasing, and none left out has a larger key |
| Recommender.GenrePartIsThreeCopies | backend/app/services/recommender.py:37 | the genre part is three copies of the space-joined genres with no separator between copies |
| Recommender.ActorPartIsTwoCopies | backend/app/services/recommender.py:46 | the actor part is two copies of the space-joined actors with no separator |
| Recommender.GenreCopiesFuse | backend/app/services/recommender.py:37 | with genres Action, Drama the last genre runs into the first ("DramaAction") |
| Recommender.ContentFeatures | backend/app/services/recommender.py:28-53 | a movie whose four fields are all missing or empty gives ""; a non-empty overview or director always gives a non-empty text |
| Recommender.FeaturePartsLength | backend/app/services/recommender.py:33-51 | the parts total three genre copies, the overview, two actor copies and the director, each only when present |
| Recommender.FeatureTextLength | backend/app/services/recommender.py:33-53 | the text's length is those parts plus one space between neighbouring parts |
| Recommender.GenresComeFirst | backend/app/services/recommender.py:36-38 | with genres present the text starts with the genre part, then a space if more follows |
| Recommender.DirectorComesLast | backend/app/services/recommender.py:50-53 | with a director present the text ends with the director, after a space if more precedes |
| Recommender.JoinLast | backend/app/services/recommender.py:53 | a join ends with its last part, after a separator when there are several |
| Recommender.FeatureTexts | backend/app/services/recommender.py:62-66 | one feature text per row, in row order |
| Recommender.FindTitleRow | backend/app/services/recommender.py:96-103 | a title query resolves to a row of the table or to none (which row: `FindTitleRowSpec`) |
| Recommender.FindTitleRowSpec | backend/app/services/recommender.py:96-103 | resolves to the first row equal to the query ignoring case; if none, to the first row containing it; to nothing exactly when no title contains it |
| Recommender.FindTitleRowIgnoresCase | backend/app/services/recommender.py:97-100 | queries equal after lower-casing resolve to the same row |
| Recommender.EmptyQueryResolves | backend/app/services/recommender.py:100 | the empty query resolves whenever there is a row |
| Recommender.Enumerate | backend/app/services/recommender.py:106 | pairs each index with its score, in order |
| Recommender.RankedCons | backend/app/services/recommender.py:109 | a pair that precedes all pairs of a ranked list can go in front |
| Recommender.InsertRanked | backend/app/services/recommender.py:109 | inserting a pair with a smaller index than all others keeps the order by score, then index |
| Recommender.SortIsStable | backend/app/services/recommender.py:109 | the descending sort of enumerated scores orders by score, then by increasing index |
| Recommender.SortedScores | backend/app/services/recommender.py:106-109 | every row index appears with its own score, higher scores first, ties by index |
| Recommender.RankedRowsDistinct | backend/app/services/recommender.py:112 | a ranked list never repeats a row index |
| Recommender.RankRow | backend/app/services/recommender.py:109 | the kept pairs are ranked, distinct rows with their own scores, non-increasing, min(top_n, n-1) of them for top_n ≥ 0 |
| Recommender.RankRowKeepsBest | backend/app/services/recommender.py:109 | every row left out other than the dropped head comes after every row kept, so the kept rows are the best-ranked after the head |
| Recommender.SortedHeadIsFirstArgMax | backend/app/services/recommender.py:109 | the first sorted element is the first row with the top score |
| Recommender.RankRowDropsFirstArgMax | backend/app/services/recommender.py:109 | the dropped row is the first row with the top score, and with room for all, every other row is returned |
| Recommender.TiedQueryRowIsRecommended | backend/app/services/recommender.py:109 | when an earlier row ties the query row's top score and top_n ≥ n-1, the query row is among the recommendations |
| Recommender.SoleEarlierTieIsFirstRecommendation | backend/app/services/recommender.py:109 | when exactly one earlier row ties the query row's top score, the query row is the first recommendation for every top_n ≥ 1 |
| Recommender.NegativeTopN | backend/app/services/recommender.py:109 | a negative top_n gives a slice counted from the end (none for -1) |
| Recommender.Recommendations | backend/app/services/recommender.py:95-121 | an unresolved title gives []; otherwise each entry is (record of row i, matrix[q][i]) in ranked order, min(top_n, n-1) of them, scores non-increasing |
| Recommender.RecommendationsOfRow | backend/app/services/recommender.py:112-119 | for a title resolving to row q, the entries pair the ranked rows' records with their scores |
| Recommender.RecommendationsIgnoreCase | backend/app/services/recommender.py:97-100 | titles equal after lower-casing get the same recommendations |
| Recommender.MovieByTitle | backend/app/services/recommender.py:128-136 | the record of the first row equal to the query ignoring case; if none, of the first row containing it; none exactly when no title contains it |
| Recommender.SearchMatches | backend/app/services/recommender.py:143-145 | the rows whose title contains the query ignoring case, each as often as it occurs, in table order, and no others |
| Recommender.WellVoted | backend/app/services/recommender.py:166 | the rows with at least 100 votes, each as often as it occurs, in table order, and no others |
| Recommender.SearchResults | backend/app/services/recommender.py:143-150 | only matching rows, most popular first, min(limit, matches) of them, none left out more popular than one kept |
| Recommender.TrendingResults | backend/app/services/recommender.py:157-158 | min(limit, n) rows by non-increasing popularity, none left out more popular than one kept |
| Recommender.TopRatedResults | backend/app/services/recommender.py:166-168 | only rows with ≥ 100 votes, highest rated first, min(limit, qualifying) of them, none left out rated higher |
| Recommender.TakeIsSubMultiset | backend/app/services/recommender.py:150 | a prefix holds no more of any element than the list |
| Recommender.SubMultisetMembers | backend/app/services/recommender.py:150 | elements of a sub-multiset are elements of the list |
| Recommender.MovieRecommender.constructor | backend/app/services/recommender.py:11-15 | starts with no table and no matrix |
| Recommender.MovieRecommender.LoadMoviesFromDb | backend/app/services/recommender.py:17-26 | the table becomes the database rows; the matrix is untouched |
| Recommender.MovieRecommender.BuildSimilarityMatrix | backend/app/services/recommender.py:55-80 | reloads a missing or empty table, and succeeds exactly when the library returns a matrix for the feature texts, which it stores; on failure the matrix stays as it was |
| Recommender.MovieRecommender.GetRecommendations | backend/app/services/recommender.py:82-121 | builds only when there is no matrix, and then succeeds exactly when the library returns a matrix for the (re)loaded table; fails exactly when it is left without a matrix; otherwise returns `Recommendations` of the current table and matrix |
| Recommender.MovieRecommender.CollectRecommendations | backend/app/services/recommender.py:116-119 | the append loop pairs each ranked row's record with its score, in order |
| Recommender.MovieRecommender.EnsureLoaded | backend/app/services/recommender.py:125-126 | loads the table only when it is missing |
| Recommender.MovieRecommender.GetMovieByTitle | backend/app/services/recommender.py:123-136 | lazily loads, fails on a table without columns, else returns `MovieByTitle` |
| Recommender.MovieRecommender.SearchMovies | backend/app/services/recommender.py:138-150 | lazily loads, fails on a table without columns, else returns `SearchResults` |
| Recommender.MovieRecommender.GetTrendingMovies | backend/app/services/recommender.py:152-158 | lazily loads, fails on a table without columns, else returns `TrendingResults` |
| Recommender.MovieRecommender.GetTopRatedMovies | backend/app/services/recommender.py:160-168 | lazily loads, fails on a table without columns, else returns `TopRatedResults` |
| DataLoader.YoutubeTrailerKey | backend/app/utils/data_loader.py:54-57 | the key of the first video of type Trailer on YouTube, none when there is none |
| DataLoader.GetYoutubeTrailer | backend/app/utils/data_loader.py:51-57 | the early-exit scan returns exactly that key |
| DataLoader.DirectorName | backend/app/utils/data_loader.py:73-76 | the name of the first crew entry with job Director, none when there is none |
| DataLoader.DirectorOf | backend/app/utils/data_loader.py:71-76 | no crew, or a crew without a Director, gives no director; otherwise the name of the first crew entry whose job is Director |
| DataLoader.CastNames | backend/app/utils/data_loader.py:68 | one name per cast entry, in order |
| DataLoader.ActorsOf | backend/app/utils/data_loader.py:66-68 | the names of the first min(5, cast) cast entries in order; [] without a cast |
| DataLoader.GenreNames | backend/app/utils/data_loader.py:79 | the genre names in order; [] when genres are missing |
| DataLoader.CompleteMovieData | backend/app/utils/data_loader.py:59-97 | each detail field is read with `.get(key, default)`: present fields are carried over; missing vote average, vote count and popularity become 0, a missing release date "", missing genres []; other missing fields stay missing; genres are the genre names, and the trailer key, actors and director are those of the videos and credits answers |
| DataLoader.FailedDetailsGiveDefaults | backend/app/utils/data_loader.py:81-96 | a movie whose detail request failed still yields a record of defaults |
| DataLoader.FetchCompleteMovieData | backend/app/utils/data_loader.py:59-97 | the record assembled with the director scan equals the reference record |
| DataLoader.IdsMembers | backend/app/utils/data_loader.py:103 | an id is seen exactly when some collected entry carries it |
| DataLoader.IdsAppend | backend/app/utils/data_loader.py:115-116 | appending an entry adds its id to the seen ids |
| DataLoader.FirstOccurrenceInPrefix | backend/app/utils/data_loader.py:114 | whether an entry is the first with its id does not depend on later entries |
| DataLoader.FirstPositions | backend/app/utils/data_loader.py:113-124 | exactly the positions of first occurrences of each id, in increasing order |
| DataLoader.Dedup | backend/app/utils/data_loader.py:113-124 | the entries at those positions, in order |
| DataLoader.DedupNoDuplicateIds | backend/app/utils/data_loader.py:114 | no two kept entries share an id |
| DataLoader.DedupAppend | backend/app/utils/data_loader.py:113-116 | a repeated id is ignored and a new id is appended |
| DataLoader.DedupIds | backend/app/utils/data_loader.py:113-124 | deduplication keeps every id |
| DataLoader.FirstN | backend/app/utils/data_loader.py:113-124 | a prefix of the input of length min(max(total, 0), n): the cap that the admission test `len(movies) < total` enforces; a non-positive total admits nothing |
| DataLoader.AddNewIsCappedDedup | backend/app/utils/data_loader.py:113-124 | admitting entries one by one keeps the first `total` entries of the deduplicated arrivals |
| DataLoader.AddNewSaturated | backend/app/utils/data_loader.py:114 | once `total` are kept nothing more is admitted |
| DataLoader.AddNewAppend | backend/app/utils/data_loader.py:108-124 | admitting two lists in turn is admitting their concatenation |
| DataLoader.CollectThroughIsArrivals | backend/app/utils/data_loader.py:108-124 | the page walk (`PageStep` per page, `CollectThrough` for pages 1 to k) equals admitting all arrivals one by one: skipping the top-rated page once `total` is reached changes nothing |
| DataLoader.CollectedEntries | backend/app/utils/data_loader.py:102-130 | after k pages the list is the first `total` first-occurrence entries in arrival order (popular then top-rated per page), never a repeated id, never more than `total` |
| DataLoader.ShortCollectionKeepsEveryId | backend/app/utils/data_loader.py:113-124 | while short of `total`, every id that arrived is collected |
| DataLoader.PagesNeeded | backend/app/utils/data_loader.py:106 | `total // 20 + 1` rounds down: 20·(pages - 1) ≤ total < 20·pages |
| DataLoader.RequestedPagesSpec | backend/app/utils/data_loader.py:119-120 | a page's top-rated list is requested exactly when the count is short after its popular list |
| DataLoader.AddPage | backend/app/utils/data_loader.py:113-116 | the inner loop admits a page and keeps `seen_ids` equal to the collected ids |
| DataLoader.VisitPage | backend/app/utils/data_loader.py:111-124 | one outer iteration advances the collection by one page and requests top-rated exactly when still short |
| DataLoader.CollectPages | backend/app/utils/data_loader.py:102-130 | at least one page for a non-negative total (`range(1, total // 20 + 2)` is never empty); at most `total // 20 + 1` pages; every page before the last visited left the count short; an early stop means `total` was reached |
| DataLoader.FetchAll | backend/app/utils/data_loader.py:133-137 | one complete record per collected entry, in order |
| DataLoader.FetchAndPrepareMovies | backend/app/utils/data_loader.py:99-141 | at least one page for a non-negative total; the page bounds and stopping rule above, the requested top-rated pages, and one record per collected entry |
| MovieRoutes.PosterUrl | backend/app/routes/movie_routes.py:43-46 | none exactly for a missing or empty path; otherwise base + "/" + size + path, default size w500 |
| MovieRoutes.BackdropUrl | backend/app/routes/movie_routes.py:49-52 | the same with default size w1280 |
| MovieRoutes.TrailerUrl | backend/app/routes/movie_routes.py:55-58 | none exactly for a missing or empty key; otherwise the YouTube watch URL of the key |
| MovieRoutes.StripPrefix | backend/app/routes/movie_routes.py:46 | the inverse of prefixing |
| MovieRoutes.ImageUrlRoundTrip | backend/app/routes/movie_routes.py:43-52 | the path is recovered from an image URL |
| MovieRoutes.ImageUrlFromPrefix | backend/app/routes/movie_routes.py:43-52 | every URL extending the prefix is the image URL of its remainder |
| MovieRoutes.TrailerUrlRoundTrip | backend/app/routes/movie_routes.py:55-58 | the key is recovered from a trailer URL |
| MovieRoutes.MissingSeparatorCollision | backend/app/routes/movie_routes.py:46 | with no separator before the path, size w50 with path "0/x.jpg" gives the same URL as size w500 with "/x.jpg" |
| MovieRoutes.Enriched | backend/app/routes/movie_routes.py:60-69 | adds exactly poster_url, backdrop_url and trailer_url (null when the source is missing, null or empty, else the URL); other keys unchanged |
| MovieRoutes.EnrichIdempotent | backend/app/routes/movie_routes.py:65-67 | enriching twice equals enriching once |
| MovieRoutes.EnrichMovieData | backend/app/routes/movie_routes.py:60-69 | mutates the given dictionary into its enriched form and returns that same object |
| MovieRoutes.MovieToEntries | backend/app/services/recommender.py:118 | a row as a dictionary; its path and key fields are strings or null and carry the row's values |
| MovieRoutes.MovieToEntriesKeys | backend/app/services/recommender.py:118 | the dictionary has exactly one key per column of the table |
| MovieRoutes.MovieToEntriesInjective | backend/app/services/recommender.py:118 | no column is lost: rows with equal dictionaries are equal |
| MovieRoutes.FormatRecommendations | backend/app/routes/movie_routes.py:125-131 | one item per recommendation in order, the enriched movie with its score |
| MovieRoutes.RecommendRoute | backend/app/routes/movie_routes.py:106-136 | an engine failure, or an empty list (its 404 caught by `except Exception`), gives a 500; otherwise the formatted recommendations; the engine's table and matrix change exactly as `GetRecommendations` states |
| MovieRoutes.StatsResponse | backend/app/routes/movie_routes.py:138-145 | status is "active" exactly when the count is positive, else "empty" |

## Left out

- TF-IDF and cosine similarity (`TfidfVectorizer`, `cosine_similarity`) are an abstract function. All that is assumed of it is an n-by-n result, and only for a non-empty corpus. The stored `tfidf_matrix` and `vectorizer` fields are not modelled.
- Recommender.FindTitleRow: every title is a string. A row without a title (a failed detail request stores one, see `DataLoader.FailedDetailsGiveDefaults`) would put a missing value into the mask that `str.contains` builds at recommender.py:100 and :133, which pandas refuses as a boolean index; that error path of `get_recommendations` and `get_movie_by_title` is not modelled. `search_movies` passes `na=False`, so there such a row would only be skipped.
- Recommender.MovieByTitle: see the line above; a row without a title is not modelled.
- DataLoader.CompleteMovieData: list entries always carry `id`, cast members and genres always carry `name`. The `KeyError` that `movie["id"]` (data_loader.py:114, :122, :136), `actor["name"]` (:68) and `g["name"]` (:79) raise for an entry without that key is not modelled.
- Floats: similarity scores, `popularity` and `vote_average` are integers. `round(score * 100, 2)` in `/recommend` and `float(score)` are not modelled. NaN cells in the table are not modelled either.
- Text.Lower: `str.lower()` is modelled for ASCII letters only. Other Unicode case mappings are not modelled.
- Recommender.SearchMatches: pandas `str.contains` interprets the query as a regular expression. The model treats it as a literal substring, so queries with regex metacharacters are not modelled. The same holds for the substring fallback in title resolution.
- Recommender.SearchResults, Recommender.TrendingResults, Recommender.TopRatedResults: pandas `sort_values` is not stable. These members use a stable sort but claim nothing about the order of equal keys.
- The `content_features` column that `build_similarity_matrix` adds to the table is not modelled. The feature texts are recomputed from the rows. As a result, the record dictionaries in recommendations lack that key.
- The database session and `Movie.to_dict` are not modelled. The database is the list of rows handed to each engine call that may load it.
- Network, the `requests` session, API keys, `time.sleep` and all `print` calls are not modelled. A failed request is the same as an empty answer: `{}` or an empty page.
- DataLoader.CompleteMovieData: a JSON `null` is treated as an absent key. Python's `dict.get(key, default)` would return `None` for an explicit null instead of the default.
- MovieRoutes.EnrichMovieData: it requires `poster_path`, `backdrop_path` and `trailer_key` to be strings or null when present, which they always are for rows of the table. For other value types Python formats them with `str()`, and that is not modelled. The ORM-object branch (`movie.to_dict()`) is not modelled.
- MovieRoutes.RecommendRoute: the 500's detail is the caught exception itself (`RouteException`), not its exact `str()` text.
- The other route handlers (`/movies`, `/movies/search`, `/movies/trending`, `/movies/top-rated`, `/movies/{id}`) are not modelled. Pydantic response models, FastAPI wiring, `main.py`, `config.py` and `movie_service.py` are not modelled either.

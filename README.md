# brief_gen ranking core in Dafny

This project models the logic behind the SEO brief generator's rankings.

**Competitor keywords.** For each competitor page:
- `URLProcessor.process_url` flattens the page's keyword-density items, drops stop words, resets every similarity to 0, and sorts by frequency.
- `get_keyword_density` fetches those items with a retry loop over keyword lengths 1 to 4.

**Pipeline in `main.py`.**
- `process_urls` folds the per-page results, in the order their futures completed, into the compiled data.
- `generate_content_outline` builds the heading outline.
- `analyze_keywords` gathers every page's keywords and de-duplicates them with a dict comprehension.
  - It scores the keywords with `KeywordDensityAnalyzer.calculate_similarity`, which makes up to three attempts for each embedding request.
  - It assigns the scores positionally and stable-sorts by `(similarity, frequency)`.
  - If scoring raised, it sorts by frequency alone.
  - The brief keeps the first 40 keywords.

**Internal-link suggestions.** `URLSimilarityAnalyzer.find_potential_outlinks` ranks a link catalogue's rows:
- the rows are optionally restricted to one cluster;
- rows whose H1 is empty are skipped;
- the rest are scored by cosine similarity to the target keyword (a failed embedding scores 0.0);
- the result is stable-sorted by similarity and cut to 10 entries.

**Smaller pieces.**
- The location and language tables of `CSVHandler`, with their 1-based selection.
- The status-code retry loop of `SerpFetcher`.
- The scheme prefixing of `parse_url`.

**How the world is modelled.**
- Every external service is an oracle indexed by request number: the SERP and keyword-density endpoints, and the two embedding clients.
- For the SERP endpoint and the two embedding clients, a `None` reply stands for a request that raised. The keyword-density oracle always answers; its raising requests are listed under "Left out".
- Each method also returns the requests it made, so bounds on retries are part of its contract.
- The cosine arithmetic is a function parameter.
- The English stop-word list is a set parameter.
- The thread pool's completion order is an input sequence.
- The dictionaries the modelled code builds or looks up by key are `OrderedDict.ODict`: the CSV tables, the catalogue dictionary, the de-duplication dict of `analyze_keywords` and the dict behind `unique()`. Keys keep the position of their first insertion, and the last value written wins.
- The `htags` headings dict is only iterated, so it is a sequence of `(tag, headings)` groups in dict order. The model does not rule out a repeated tag, which a dict cannot hold.
- The fields of a keyword record that the code copies without reading are a plain Dafny `map`.
- Python's stable `sort(reverse=True)` is `StableSort.SortDesc`. It is proved to be a permutation of its input, sorted in descending order, and stable: for every key, the elements with that key keep their input order.

Modules:
- `Wrappers`, `OrderedDict`, `StableSort`, `PageData`: shared values.
- `UrlParser`: `src/utils/url_parser.py`.
- `SerpFetcher`: `src/api/serp_fetcher.py`.
- `CsvTables`: `src/utils/csv_handler.py`. The handler is the class `CsvHandler`, whose two table fields `LoadCsv` replaces.
- `KeywordDensityAnalyzer`: `src/analysis/keyword_density_analyzer.py`.
- `UrlSimilarity`: `src/utils/url_similarity.py`.
- `UrlProcessor`: `src/utils/url_processor.py`.
- `BriefPipeline`: `src/main.py`.

Most loops of the source are methods proved equal to a specification function, and the properties the source promises are lemmas about those functions. The SERP retry loop states its outcome directly in its `ensures`. The comprehensions of `main.py` (the keyword gathering and the de-duplication) are functions, as the source writes them.

## Model

| member | source | states |
|---|---|---|
| OrderedDict.ODict.Put | src/utils/csv_handler.py:15 | `d[k] = v` sets `k` to `v` and keeps every other entry. A new key is appended to the key order; a present key keeps its place. |
| OrderedDict.ODict.Values | src/main.py:176 | Definition: `list(d.values())` lists each key's value, in key order. |
| OrderedDict.FromPairsKeys | src/main.py:176 | A dict built from pairs has exactly the keys that occur in the pairs. |
| OrderedDict.FromPairsLastWins | src/main.py:176 | The value kept for a key is the value of the last pair with that key. |
| OrderedDict.FromPairsFirstOrder | src/main.py:176 | Keys are ordered by the position of their first pair. |
| OrderedDict.FromPairsValuesFrom | src/main.py:176 | Every entry kept is one of the input pairs. |
| StableSort.SortDesc | src/main.py:184 | The sort's output is a permutation of its input. |
| StableSort.InsertSorted | src/main.py:184 | Inserting into a descending list keeps it descending. |
| StableSort.SortDescSorted | src/main.py:184 | `sort(reverse=True)` leaves the list in descending key order. |
| StableSort.WithKeyInsert | src/main.py:184 | Inserting an element puts it after every element already placed that has its key. |
| StableSort.SortDescStableAt | src/main.py:184 | For each key, the sorted list lists the elements with that key in their input order. |
| StableSort.SortDescStable | src/main.py:184 | The sort is stable for every key at once. |
| StableSort.Take | src/main.py:132 | `s[:n]` is a prefix of `s` of length `min(n, len(s))`. |
| UrlParser.FullUrl | src/utils/url_parser.py:6 | The full URL always starts with `http://` or `https://` and ends with the input. It equals the input exactly when the input already has such a scheme; otherwise it is `https://` plus the input: it starts with `https://`, ends with the input, and is exactly `len("https://")` longer. |
| UrlParser.FullUrlIdempotent | src/utils/url_parser.py:6 | Prefixing an already prefixed URL changes nothing. |
| SerpFetcher.GetSerpResults | src/api/serp_fetcher.py:8-32 | Makes 1 to 5 posts, each with the identical body, and every post but the last was answered 40400. A post that raises ends the call with that exception. Otherwise the outcome depends on the last response: 20000 yields its first task (or the IndexError when `tasks` is empty); 40400 means all five posts were made and the result is `None`; any other code yields `None`. |
| CsvTables.ParseInt | src/utils/csv_handler.py:15 | `int(s)` succeeds exactly on decimal digits with at most one leading sign, and a negative result comes only from a leading `-`. |
| CsvTables.Show | src/utils/csv_handler.py:15 | A reference printer for integers, in the format of Python's `str(n)`, used only to state the round trip of `int(...)` on this line. Its output is always text that `int` accepts. |
| CsvTables.ParseShow | src/utils/csv_handler.py:15 | `int(str(n)) == n` for every integer, so the parsed value is the number the text denotes. |
| CsvTables.RowEntry | src/utils/csv_handler.py:15-17 | Definition: one row's entry. The code column is read and parsed before the name column, as Python evaluates the right-hand side of `data[...] = ...` first, so a row missing both raises for the code column. |
| CsvTables.Table | src/utils/csv_handler.py:10-17 | Definition: the dict built from the rows' entries, or the first failing row's error. |
| CsvTables.Entries | src/utils/csv_handler.py:13-17 | Yields one entry per row, each row's entry in place, or else the error of a row that fails. |
| CsvTables.EntriesErrSticky | src/utils/csv_handler.py:13-17 | Once a row raises, later rows do not change the outcome. |
| CsvTables.BuildTable | src/utils/csv_handler.py:10-17 | The row loop builds the dict from the rows' entries, or stops at the first row that raises. |
| CsvTables.LastRowWins | src/utils/csv_handler.py:15-17 | For duplicate names, the code of the last row with that name is kept. |
| CsvTables.NamesInFirstRowOrder | src/utils/csv_handler.py:13-17 | Names are listed in the order of their first row. |
| CsvTables.CsvHandler.constructor | src/utils/csv_handler.py:5-7 | Both tables start empty. |
| CsvTables.CsvHandler.LoadCsv | src/utils/csv_handler.py:9-22 | `location` replaces `locations` with name to `int(code)` and leaves `languages` alone. `language` replaces `languages` with name to code and leaves `locations` alone. A row that raises, or an unknown type, leaves both tables unchanged. |
| CsvTables.CsvHandler.GetOptions | src/utils/csv_handler.py:24-30 | Definition (dispatch): returns the matching table, and raises exactly for any other type. |
| CsvTables.CsvHandler.GetUserChoice | src/utils/csv_handler.py:38-44 | Succeeds exactly when `1-n <= choice <= n`. It returns the name at Python index `choice-1` (so 0 selects the last name) with that name's code. Otherwise it raises for a bad type or index. |
| KeywordDensityAnalyzer.Retry | src/analysis/keyword_density_analyzer.py:15-29 | Makes at most `left` requests, and at least one when it succeeds. A failure uses all `left` requests. |
| KeywordDensityAnalyzer.RetryTrace | src/analysis/keyword_density_analyzer.py:15-29 | A success is the reply to the last request made, and every earlier request failed. When it fails, every request failed. |
| KeywordDensityAnalyzer.Embed | src/analysis/keyword_density_analyzer.py:13-29 | `get_embedding` makes between 1 and 3 requests. |
| KeywordDensityAnalyzer.RetryAfterFailures | src/analysis/keyword_density_analyzer.py:15-29 | Failed requests only use up attempts. |
| KeywordDensityAnalyzer.GetEmbedding | src/analysis/keyword_density_analyzer.py:13-29 | The retry loop returns what `Embed` specifies: the first success within 3 requests, or `None` after 3 failures. |
| KeywordDensityAnalyzer.KeywordEmbeddingsCalls | src/analysis/keyword_density_analyzer.py:38-43 | Each keyword costs between 1 and 3 requests. |
| KeywordDensityAnalyzer.KeywordEmbeddings | src/analysis/keyword_density_analyzer.py:38-43 | There is one outcome per keyword. |
| KeywordDensityAnalyzer.Successes | src/analysis/keyword_density_analyzer.py:40-43 | The successful embeddings are never more than the outcomes. |
| KeywordDensityAnalyzer.SuccessesAppend | src/analysis/keyword_density_analyzer.py:40-43 | Skipping failures distributes over concatenation. |
| KeywordDensityAnalyzer.SuccessesEmpty | src/analysis/keyword_density_analyzer.py:45-46 | No embedding succeeded exactly when every keyword failed. |
| KeywordDensityAnalyzer.Scores | src/analysis/keyword_density_analyzer.py:52 | Definition: there is one cosine per embedding, in order. |
| KeywordDensityAnalyzer.Similarity | src/analysis/keyword_density_analyzer.py:31-53 | Definition: what `calculate_similarity` returns or raises, with its request count; its properties are the two lemmas below. |
| KeywordDensityAnalyzer.SimilarityProperties | src/analysis/keyword_density_analyzer.py:31-53 | The target error is raised exactly when the target's embedding failed. After a target success, the call raises exactly when every keyword failed, an empty list included. On success there is one score per embedded keyword, in order, never more than the keywords. Each score is the cosine of the target and that embedding. |
| KeywordDensityAnalyzer.SimilarityCalls | src/analysis/keyword_density_analyzer.py:31-46 | A failed target raises before any keyword request. Otherwise every keyword is requested, so there are between n+1 and 3(n+1) requests in all. |
| KeywordDensityAnalyzer.EmbedKeywordsStep | src/analysis/keyword_density_analyzer.py:38-43 | One keyword's requests come before the rest, and its success joins the list. |
| KeywordDensityAnalyzer.EmbedKeywords | src/analysis/keyword_density_analyzer.py:37-43 | The keyword loop collects exactly the successful embeddings, in order, with the requests `KeywordEmbeddings` specifies. |
| KeywordDensityAnalyzer.SecondLeads | src/analysis/keyword_density_analyzer.py:38-43 | When the first keyword fails and the second succeeds, the second keyword's embedding heads the list. |
| KeywordDensityAnalyzer.FirstScoreIsSecondKeywords | src/analysis/keyword_density_analyzer.py:38-52 | In that case the call succeeds and its first score belongs to the second keyword. |
| KeywordDensityAnalyzer.CalculateSimilarity | src/analysis/keyword_density_analyzer.py:31-53 | `calculate_similarity` returns or raises what `Similarity` specifies, making that many requests. |
| UrlSimilarity.AvailableDatabases | src/utils/url_similarity.py:23-24 | Lists every catalogue name exactly once, and only those names. |
| UrlSimilarity.ClusterPairs | src/utils/url_similarity.py:30 | Definition: the column `cluster_name`, row by row. |
| UrlSimilarity.ClustersForDatabase | src/utils/url_similarity.py:26-30 | An unknown catalogue yields `[]`. |
| UrlSimilarity.UniqueClusters | src/utils/url_similarity.py:30 | Definition: the keys of the dict built from the cluster column; `UniqueClustersProperties` states what they are. |
| UrlSimilarity.UniqueClustersProperties | src/utils/url_similarity.py:30 | `unique()` lists the distinct cluster cells, each once, in order of first appearance. |
| UrlSimilarity.FiltersByCluster | src/utils/url_similarity.py:42 | Definition: the condition `cluster_name and hard_clustering`. |
| UrlSimilarity.InCluster | src/utils/url_similarity.py:43 | Keeps exactly the rows whose cluster equals the name. A NaN cell equals no name. |
| UrlSimilarity.Candidates | src/utils/url_similarity.py:42-44 | Rows are filtered by cluster only when the cluster name is non-empty and hard clustering is on. Otherwise every row is kept. |
| UrlSimilarity.Scanned | src/utils/url_similarity.py:49-53 | The loop never keeps more rows than it is given. |
| UrlSimilarity.ScannedMembers | src/utils/url_similarity.py:49-53 | A row is kept exactly when it is an input row and `str(h1)` is non-empty. A NaN H1 is kept as `"nan"`. |
| UrlSimilarity.EmbeddingOf | src/utils/url_similarity.py:69-76 | A failed embedding request yields `[]`. |
| UrlSimilarity.Similarity | src/utils/url_similarity.py:78-81 | Definition: 0.0 whenever either vector is empty, the cosine otherwise. |
| UrlSimilarity.Score | src/utils/url_similarity.py:54-61 | Definition: one row's entry, scored with the reply to its own request. |
| UrlSimilarity.Scores | src/utils/url_similarity.py:49-61 | There is one entry per scanned row. |
| UrlSimilarity.ScoresFromRows | src/utils/url_similarity.py:54-61 | Each entry's url, cluster and H1 come from its own row, and its score from that row's request. |
| UrlSimilarity.ScoreRows | src/utils/url_similarity.py:49-61 | The row loop appends one scored entry per row with a non-empty H1, in row order, as `Scores` specifies. It makes one request for the target and one per kept row. |
| UrlSimilarity.FailedEmbeddingScoresZero | src/utils/url_similarity.py:69-80 | A row whose embedding failed stays in the list with score 0.0. |
| UrlSimilarity.TargetFailureScoresZero | src/utils/url_similarity.py:46-55 | When the target's embedding failed, every row scores 0.0. |
| UrlSimilarity.PotentialOutlinks | src/utils/url_similarity.py:36-64 | Definition: the ranking `find_potential_outlinks` returns and its request count; its properties are `PotentialOutlinksProperties`. |
| UrlSimilarity.PotentialOutlinksProperties | src/utils/url_similarity.py:56-64 | The result has `min(n, 10)` entries and is a prefix of the stable descending sort by similarity. Each entry carries the url, cluster and H1 of a scanned row, whose H1 is non-empty. |
| UrlSimilarity.FindPotentialOutlinks | src/utils/url_similarity.py:32-67 | The row loop, the sort and the slice return what `PotentialOutlinks` specifies. An unknown catalogue yields `[]` with no requests, and there are never more than 10 entries. |
| UrlProcessor.Poll | src/utils/url_processor.py:114-144 | Makes at most `retries` posts for one length, at least one when it gathers results. Gathering nothing uses all of them. |
| UrlProcessor.PollTrace | src/utils/url_processor.py:127-144 | Every post but the last failed. Results come only from a 20000 response whose first task has a non-empty result. Gathering nothing means every post failed, whatever its status. |
| UrlProcessor.Repeat | src/utils/url_processor.py:114-124 | `k` attempts make exactly `k` posts. |
| UrlProcessor.RepeatAll | src/utils/url_processor.py:115-124 | Every one of those posts carries the same body. |
| UrlProcessor.Rounds | src/utils/url_processor.py:113-146 | Definition: the results and posts of the remaining keyword lengths, in order. |
| UrlProcessor.RoundsPosts | src/utils/url_processor.py:113-124 | At most `retries` posts for each remaining length. |
| UrlProcessor.RoundsLengths | src/utils/url_processor.py:113-124 | Every post carries the task id, the URL and a length from the remaining ones, in ascending order. |
| UrlProcessor.RoundsPerLength | src/utils/url_processor.py:113-114 | At most `retries` posts for any one length. |
| UrlProcessor.DensityPosts | src/utils/url_processor.py:113-124 | Over lengths 1 to 4 there are at most `4*retries` posts. Each carries the task id and the URL, lengths ascend, and no length gets more than `retries` posts. |
| UrlProcessor.PollLengths | src/utils/url_processor.py:113-146 | The outer loop over lengths 1 to 4 gathers the results and makes the posts `Rounds` specifies. |
| UrlProcessor.KeywordDensity | src/utils/url_processor.py:145-148 | A result that is present is never empty. |
| UrlProcessor.PollDensity | src/utils/url_processor.py:114-144 | The inner loop posts the same body until the first success, as `Poll` specifies. |
| UrlProcessor.GetKeywordDensity | src/utils/url_processor.py:111-148 | Returns the concatenated results of lengths 1 to 4 in order, or `None` when they are empty. It makes at most `4*retries` posts in ascending length order, at most `retries` per length. |
| UrlProcessor.Flatten | src/utils/url_processor.py:29-32 | Definition: `all_items`, the items of every entry in order. |
| UrlProcessor.FlattenMembers | src/utils/url_processor.py:29-32 | An item is collected exactly when some entry lists it. |
| UrlProcessor.CollectItems | src/utils/url_processor.py:29-32 | `all_items` is the in-order concatenation of the entries' items. |
| UrlProcessor.RecordOf | src/utils/url_processor.py:38-40 | Definition: `{**kw, 'similarity': 0}`. |
| UrlProcessor.Relevant | src/utils/url_processor.py:38-42 | Keeps exactly the items whose keyword is not a stop word, with similarity reset to 0 and the other fields unchanged. |
| UrlProcessor.ProcessUrl | src/utils/url_processor.py:13-52 | Returns `None` exactly when the page details, task id or density list is missing or empty, or no items were collected. Otherwise `all_keywords` is a permutation of the relevant records, sorted by frequency in descending order and stable, and `relevant_keywords` is its first `min(n, 10)` records. |
| BriefPipeline.AllKeywords | src/main.py:175 | Definition: every page's keywords, page by page. |
| BriefPipeline.AllKeywordsMembers | src/main.py:175 | A record is gathered exactly when some page lists it. |
| BriefPipeline.Dedup | src/main.py:176 | Definition: the values of the dict built from the keyword pairs; the `Dedup*` lemmas state its properties. |
| BriefPipeline.KeywordPairs | src/main.py:176 | Definition: pairs each record with its keyword, in order. |
| BriefPipeline.DedupAt | src/main.py:176 | The i-th record kept has the dict's i-th key and is an input record. |
| BriefPipeline.DedupDistinct | src/main.py:176 | No two records kept share a keyword, and each record kept is an input record. |
| BriefPipeline.DedupComplete | src/main.py:176 | Every input keyword has a record kept. |
| BriefPipeline.DedupLastWins | src/main.py:176 | The record kept for a keyword is the last input record with it. |
| BriefPipeline.DedupFirstOrder | src/main.py:176 | Records are kept in the order of their keyword's first appearance. |
| BriefPipeline.Keywords | src/main.py:178 | Definition: the records' keywords, in order. |
| BriefPipeline.Scored | src/main.py:182-183 | Definition: the records after the `zip` assignment; `AssignScores` states it. |
| BriefPipeline.AssignScores | src/main.py:182-183 | The i-th score goes to the i-th record, and every other field is unchanged. Records beyond the last score keep their similarity. |
| BriefPipeline.RankKeywords | src/main.py:180-188 | Definition: the scored sort, or the frequency sort when scoring raised; `RankKeywordsProperties` states its properties. |
| BriefPipeline.RankKeywordsProperties | src/main.py:180-188 | On scores, the result is a permutation of the scored records, sorted by (similarity, frequency) descending and stable. When scoring raised, it is a permutation of the records, sorted by frequency descending and stable. |
| BriefPipeline.ScoreShiftsPastFailedKeyword | src/main.py:181-183 | When the first keyword's embedding fails and the second's succeeds, the first record receives the second keyword's score. |
| BriefPipeline.TopKeywords | src/main.py:132 | The first 40 ranked keywords. |
| BriefPipeline.AnalyzeKeywords | src/main.py:174-196 | Gathers, de-duplicates, scores and sorts as `RankKeywords` specifies. |
| BriefPipeline.Upper | src/main.py:207 | Upper-casing keeps the length. |
| BriefPipeline.TagLines | src/main.py:205-207 | One line per heading. |
| BriefPipeline.HeadingLinesHaveColon | src/main.py:204-207 | There is one line per heading over all tags, and each has a colon. |
| BriefPipeline.TagLinesHaveColon | src/main.py:207 | Every `TAG: heading` line has a colon. |
| BriefPipeline.HeadingLines | src/main.py:204-207 | Definition: the heading lines, tag by tag. |
| BriefPipeline.PageLines | src/main.py:200-209 | Definition: one page's lines. |
| BriefPipeline.OutlineLines | src/main.py:199-209 | Definition: every page's lines, in order. |
| BriefPipeline.Join | src/main.py:210 | Definition: `"\n".join(lines)`. |
| BriefPipeline.PageLinesProperties | src/main.py:200-209 | The `URL:` line comes first. The no-headings line appears exactly when the headings dict is empty; otherwise there is one line per heading. |
| BriefPipeline.AppendHeadings | src/main.py:204-207 | The nested loop appends the heading lines tag by tag, in dict order. |
| BriefPipeline.GenerateContentOutline | src/main.py:198-210 | The outline is the pages' lines joined with newlines. |
| BriefPipeline.Recorded | src/main.py:155-166 | Definition: the pages whose futures returned one, in completion order. |
| BriefPipeline.ImageTotal | src/main.py:163-171 | Definition: the sum of the recorded pages' image counts. |
| BriefPipeline.RecordedMembers | src/main.py:155-168 | A page is recorded exactly when its future returned it, and never more pages than completions. |
| BriefPipeline.ProcessUrls | src/main.py:141-172 | `detailed_analysis` holds the returned pages in completion order, and `top_competitors[i]` is the url of the i-th. The image sum and count cover those pages. The outline is built from them. |

## Left out

- Network, HTTP and JSON (`rest_client.py`), the OpenAI and DataForSEO clients, `time.sleep`, logging and `print`: responses are oracles indexed by request number.
- `main()`, `input()`, the interactive `get_user_choice` in `src/main.py` and `CSVHandler.display_options`: terminal I/O.
- CsvTables.CsvHandler.GetUserChoice: takes the choice already converted to an integer; the `int(input(...))` read and its ValueError are I/O.
- CsvTables.ParseInt: accepts a sign followed by decimal digits only. Python's `int` also accepts surrounding whitespace, `_` separators and non-ASCII digits.
- File reading (`csv.DictReader`, `pandas.read_csv`, the directory listing in `_load_databases`): rows and catalogues are inputs.
- The cosine arithmetic of numpy and sklearn, and the float division for `avg_image_count`: the cosine is a parameter, and the compiled data carries the sum and count of the image counts.
- UrlSimilarity.PotentialOutlinksProperties: the cosine parameter returns a real, so it can never be NaN. numpy yields NaN for a zero-norm embedding (`src/utils/url_similarity.py:81`), and a NaN similarity breaks the ordering `sorted(..., reverse=True)` relies on; the model does not capture that case.
- UrlProcessor.GetKeywordDensity: a post that raises (a connection or JSON error from the REST client) is not modelled. In the source it ends `get_keyword_density` at once with that exception, without further attempts, and `process_urls` catches it as a failed page; the density oracle here always answers.
- The thread pool in `process_urls`: the completion order is an input sequence. A future that raised is one outcome of that sequence.
- The unused accumulators `all_keywords` and `word_counts` of `process_urls`, and the `content_summary` the caller adds.
- `get_on_page_data`, `create_onpage_task` and the timestamp task ids: their results are parameters of `ProcessUrl`.
- The domain half of `parse_url`, which relies on `tldextract`.
- BriefPipeline.Upper: upper-cases ASCII letters only and keeps the length; Python's `str.upper` also maps other scripts and can lengthen text (`ß` becomes `SS`).
- The `status_message` KeyError that the log lines of `get_keyword_density` and `get_serp_results` can raise on an error response: logging.
- The Python `similarity: 0` written by `process_url` is an `int`; the model uses the real 0.0, which compares equal.
- Records are values: the scores `analyze_keywords` writes into the shared keyword dicts in place are modelled by returning the updated records, so aliasing between the pages' lists and the ranked list is not captured.
- `SIMILARITY_THRESHOLD`, `MAX_LINK_SUGGESTIONS` and the embedding model names are never read by the modelled code.
- `gpt_brief_generator.py` and `content_summary_fetcher.py` are not part of this model: they are prompt text and a single network call.

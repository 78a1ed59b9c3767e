# Job assistant: a verified model of its decision logic

The job assistant is a small Flask chatbot over a table of New York City job
postings. A user asks in free text; the service decides whether the question is
a follow-up, a question about trends or a search, and answers through a chat
model. This project models the deterministic part of that decision-making in
Dafny and proves what it promises:

- **Trend aggregation** (`Trends`, on top of the generic selection ranking in
  `Ranking`): `get_trending_jobs`, `get_trending_categories` and
  `get_trending` count each distinct title or category, order by descending
  count and keep the first `top_k`. Ties keep the order in which values first
  appear in the table (pandas leaves this open).
- **Retrieval** (`Retrieval`): embedding generation, the embedding-file cache
  and the exact top-k nearest-neighbour search of a flat L2 index, with rows
  mapped back to postings. Vectors have integer coordinates, so squared
  distances are exact. Equally distant rows come out lower row first.
- **Response shaping** (`Responses`, `Decimal`): `generate_response` picks a
  branch and numbers the trend lines "{i+1}. {label} ({count} listings)". Every
  such line is proved to read back as its position, label and count.
- **The live `/query` and `/trending` routes of app.py** (`QueryRoute`):
  the case-insensitive classification, the precedence of its markers, and
  which outside calls each branch makes.
- **The conversation history of main.py** (`Conversation`): a class whose
  `turns` field the `/query` and `/follow-up` methods change in place. Each
  method is proved equal to a step function, and the lemmas cover the steps.

Outside services are parameters:

- the embedding provider is `embed: string -> Vector`;
- the postings a search returns are `retrieve: string -> seq<Posting>` in the
  route models;
- a chat-model answer is the symbol `Reply(prompt)`, so the model keeps
  which prompt was sent, and how often, but not the text that comes back.

## Model

| member | source | states |
|---|---|---|
| Jobs.Titles | app.py:271 | one title per posting, in posting order |
| Jobs.Categories | app/retrieval.py:102 | one category per posting, in posting order |
| Jobs.Descriptions | app/retrieval.py:29 | one description per posting, in posting order |
| Ranking.BestIndex | app/retrieval.py:89 | picks a best-scoring candidate, and the first of those |
| Ranking.Rank | app/retrieval.py:89 | the ranking is a permutation of the candidates |
| Ranking.RankIsRanked | app/retrieval.py:89 | a ranking is ordered by score, ties in the candidates' order, and has no repeats |
| Ranking.RankMembers | app/retrieval.py:89 | a value is in the ranking exactly when it is a candidate |
| Ranking.TopIsBest | app/retrieval.py:89 | the first k of a ranking are ordered and distinct candidates, and no candidate left out scores better than one kept |
| Ranking.Top | app/retrieval.py:89 | `head(k)` keeps k entries, or all of them when there are fewer |
| Trends.Count | app/retrieval.py:89 | a count is at most the number of rows, and positive exactly for values that occur |
| Trends.FirstIndex | app/retrieval.py:89 | the position of the first occurrence; earlier rows hold other values |
| Trends.Uniques | app/retrieval.py:89 | the distinct values are exactly the values that occur |
| Trends.UniquesInFirstAppearanceOrder | app/retrieval.py:89 | the distinct values are listed in order of first appearance |
| Trends.Tallies | app/retrieval.py:93-96 | each entry pairs a value with its count |
| Trends.HitsOfDistinct | app/retrieval.py:102-108 | a row matches at most one of a set of distinct labels |
| Trends.SumOverDistinctBounded | app/retrieval.py:102-108 | the rows matched by distinct labels are at most all rows |
| Trends.SumCountsOfTallies | app/retrieval.py:93-96 | the counts of the entries add up to the matched rows |
| Trends.MostFrequent | app/retrieval.py:89 | `value_counts().head(k)` has min(k, distinct values) entries, each paired with the number of rows holding its value |
| Trends.MostFrequentCounts | app/retrieval.py:89-96 | `value_counts().head(k)` has min(k, distinct values) entries, none for k = 0, and each count is the number of rows holding its value |
| Trends.MostFrequentOrder | app/retrieval.py:89 | values distinct, counts non-increasing, ties in order of first appearance |
| Trends.MostFrequentComplete | app/retrieval.py:89 | no value left out is more frequent than any value kept |
| Trends.MostFrequentSum | app/retrieval.py:102-108 | the counts add up to at most the number of rows |
| Trends.EntrySumOfJobs | app/retrieval.py:93-96 | turning counts into title entries keeps their sum |
| Trends.EntrySumOfCategories | app/retrieval.py:105-108 | turning counts into category entries keeps their sum |
| Trends.JobEntriesComplete | app/retrieval.py:89-96 | turned into title entries, the most frequent values still leave out no title more frequent than one kept |
| Trends.CategoryEntriesComplete | app/retrieval.py:102-108 | the same for category entries |
| Trends.TrendingJobs | app/retrieval.py:86-97 | at most top_k title entries, each counting the rows with its title |
| Trends.TrendingCategories | app/retrieval.py:99-109 | at most top_k category entries, each counting the rows in its category |
| Trends.Trending | app/retrieval.py:111-125 | at most top_k entries, each counting the rows holding its label in its own column |
| Trends.TrendingJobsSpec | app/retrieval.py:86-97 | `get_trending_jobs` gives exactly min(top_k, distinct titles) title trends, counts true to the table, labels distinct, counts non-increasing, sum at most the row count, and no title left out more frequent than one kept |
| Trends.TrendingCategoriesSpec | app/retrieval.py:99-109 | the same for `get_trending_categories` over categories |
| Trends.TrendingSpec | app/retrieval.py:111-125 | "categories" gives the category trends, "jobs" the title trends, anything else nothing, and the result is well formed |
| Retrieval.GenerateEmbeddings | app/retrieval.py:37-46 | one provider call per text, in input order, and one vector per text, the i-th for the i-th text |
| Retrieval.Nearest | app/retrieval.py:59 | the search returns min(k, rows) row positions |
| Retrieval.NearestRows | app/retrieval.py:59 | the search returns min(k, rows) distinct row positions of the index |
| Retrieval.NearestOrder | app/retrieval.py:34-35 | results come in non-decreasing squared L2 distance, equal distances lower row first |
| Retrieval.NearestComplete | app/retrieval.py:59 | no row left out is strictly closer than a row returned |
| Retrieval.RowsAt | app/retrieval.py:62 | row lookup succeeds exactly when every position is a row of the table, and gives the rows at those positions in order; otherwise it is an out-of-range error |
| Retrieval.Retrieve | app/retrieval.py:57-62 | a query vector of the wrong dimension, and only that, is a dimension error; a success holds min(k, rows) postings |
| Retrieval.RetrieveSpec | app/retrieval.py:57-62 | with a query of the index's dimension and no more index rows than table rows, the query succeeds with min(k, rows) postings, each the table row at the position the search found |
| Retrieval.PaddedSearch | app/retrieval.py:59 | the search as written always returns k positions |
| Retrieval.RowsAtPadded | app/retrieval.py:62 | `iloc` on the padded positions succeeds exactly when each one, -1 included, names a row counted from the front or the back, and then entry i is the row position i names |
| Retrieval.RetrieveAsWritten | app/retrieval.py:57-62 | the query as written is a dimension error exactly for a query vector of the wrong dimension, and a success holds k postings however few rows there are |
| Retrieval.AsWrittenAgreesWithoutPadding | app/retrieval.py:57-62 | with at least k indexed rows, the query as written returns exactly what the corrected query returns |
| Retrieval.PaddedSearchShape | app/retrieval.py:59 | with fewer rows than k, every row is found and the rest is -1 |
| Retrieval.PaddedQueryRepeatsLastRow | app/retrieval.py:59-62 | with fewer rows than k, the query as written returns k postings, and the last table row appears twice |
| Retrieval.EmbeddingFile.constructor | app/retrieval.py:17 | the persisted file, present or not, with its vectors |
| Retrieval.JobRetrieval.constructor | app/retrieval.py:12-18 | keeps the table and loads or creates the embeddings; the embeddings, the file and the index end as `LoadEmbeddings` states, but which texts were sent to the provider is not part of its contract |
| Retrieval.JobRetrieval.LoadEmbeddings | app/retrieval.py:20-46 | a present file is used and the provider is not called; otherwise every description is embedded in row order, and the file is written exactly when the vectors share one width; the index is built exactly when there are rows of one width, and holds the embeddings at that width |
| Retrieval.JobRetrieval.Query | app/retrieval.py:48-63 | for a positive top_k, one provider call for the query text, then the postings of the nearest rows, min(top_k, rows) of them |
| Decimal.Show | app.py:32-33 | a count is written as non-empty decimal digits without a leading zero |
| Decimal.ValueOfShow | app.py:32-33 | reading the written number gives the number back |
| Decimal.LeadingDigitsOf | app.py:32 | the line number is read off exactly before the ". " |
| Decimal.TrailingDigitsOf | app.py:33 | the count is read off exactly after the " (" |
| Responses.NumberedTrendLineReadsBack | app.py:32-33 | "{position}. {label} ({count} listings)" reads back as the position, the label and the count, whatever the label holds |
| Responses.TrendLine | app.py:32-33 | line i reads back as position i+1, the entry's title (or category when it has no title) and its count |
| Responses.TrendLines | app.py:31-35 | one line per trend entry |
| Responses.LabelAndCountReadBack | app.py:32-33 | "{label} ({count} listings)" reads back as the label and the count, whatever the label holds |
| Responses.TrendLinesReadBack | app.py:31-35 | the trend details list every entry in order, each line reading back as its position, label and count |
| Responses.GenerateResponse | app.py:25-77 | non-empty trends give a trends prompt with lines that read back; otherwise non-empty jobs give a jobs prompt; otherwise the fixed suggestions come back without a chat call; the no-matches text is never returned |
| QueryRoute.LowerChar | app.py:262 | capitals A-Z become small letters, everything else stays |
| QueryRoute.Lower | app.py:262 | lower-cases character by character and keeps the length |
| QueryRoute.LowerIdempotent | app.py:262 | lower-casing twice is lower-casing once, and leaves no capitals |
| QueryRoute.MarkerIgnoresCase | app.py:262 | a lower-case marker is found in the lower-cased query exactly when some stretch of the query lower-cases to it |
| QueryRoute.Classify | app.py:258-305 | missing or empty queries are refused first; the trend mode is always "categories" or "jobs" |
| QueryRoute.ChatCalls | app.py:69-77 | a chat call is made exactly when the response needs one, with its prompt |
| QueryRoute.HandleQuery | app.py:252-311 | at most one lookup and one chat call, the lookup first; a 400 answer exactly when no call is made |
| QueryRoute.MissingQueryRefused | app.py:258-259 | a missing or empty query, and only that, gets "Query is missing" with 400 and makes no call |
| QueryRoute.FollowUpPrecedes | app.py:262-288 | "tell me more" in any capitals wins; without previous jobs the answer is the 400 message with no call; with them one chat call gets the previous titles in order and the query; never a retrieval or trend lookup |
| QueryRoute.TrendQueryMode | app.py:290-301 | "trending" in any capitals looks up category trends exactly when "category" also appears, title trends otherwise, retrieves nothing, and answers with well formed trends of at most five entries |
| QueryRoute.SearchRetrievesRawQuery | app.py:304-311 | any other query is retrieved for with its raw text, first, and answers with those postings; no postings means the fixed suggestions |
| QueryRoute.TrendingRouteAsWritten | app.py:375-386 | as written, both lists hold at most five entries whatever top_k asks |
| QueryRoute.TrendingRoute | app.py:375-386 | corrected, both lists hold at most top_k entries, five when none is given |
| QueryRoute.TrendingRouteIgnoresTopK | app.py:375-386 | as written, asking for fewer than five trends returns more than asked for when the table has enough distinct titles |
| QueryRoute.TrendingRouteSpec | app.py:375-386 | the corrected route keeps both lists well formed for the requested top_k (default 5), each min(top_k, distinct values) long |
| Conversation.InitialHistory | main.py:69-80 | the service starts with the two seeded turns, neither holding jobs |
| Conversation.InitialJobsFromRetrieval | main.py:69-80 | the seeded history holds no jobs that were not retrieved |
| Conversation.QueryStep | main.py:86-127 | a missing or empty query, and only that, is refused with the history unchanged; a reset empties the history first; a trend answer adds nothing; a search appends one turn with the query and what was retrieved for it, and answers with the new history |
| Conversation.FollowUpStep | main.py:130-185 | a missing query is refused, then an empty history, both leaving the history unchanged; a reply keeps every earlier turn and appends one carrying the last turn's jobs and the reply |
| Conversation.MissingQueryKeepsHistory | main.py:93-98 | a missing query changes nothing, even with the reset flag, and the same holds for a follow-up |
| Conversation.ResetClearsThenServes | main.py:96-98 | a reset removes all earlier turns, and the query is then classified and served exactly as on an empty history |
| Conversation.TrendQueryKeepsHistory | main.py:100-112 | a trend query leaves the history as it was, looks up category trends exactly when "category" also appears and title trends otherwise, five at most, and answers with them and a response built from them alone |
| Conversation.SearchAppendsOneTurn | main.py:114-127 | a search appends exactly one turn, holding the query and its retrieved jobs, and keeps every earlier turn |
| Conversation.FollowUpNeedsHistory | main.py:138-139 | a follow-up on an empty history is refused and changes nothing |
| Conversation.FollowUpCarriesJobs | main.py:145-181 | a follow-up appends one turn carrying the last turn's jobs, and prompts with the last query and the titles of its jobs |
| Conversation.StepsOnlyAppend | main.py:86-185 | without a reset, both routes keep the earlier turns and add at most one |
| Conversation.InitialFollowUpProceedsWithoutJobs | main.py:130-185 | a follow-up on the seeded history goes ahead with an empty list of previous jobs |
| Conversation.ResetThenFollowUpHasNoHistory | main.py:96-139 | after a reset with a trend query, a follow-up finds no history |
| Conversation.FollowUpChainKeepsJobs | main.py:176-181 | after any number of follow-ups the last turn still holds the jobs of the turn they started from |
| Conversation.AppendKeepsProvenance | main.py:116-119 | appending a turn with traceable jobs keeps every turn's jobs traceable |
| Conversation.StepsKeepProvenance | main.py:114-181 | both routes keep every turn's jobs empty or retrieved for the query of the same or an earlier turn |
| Conversation.ConversationHistory.constructor | main.py:69-80 | the history object starts with the seeded turns |
| Conversation.ConversationHistory.Query | main.py:86-127 | `/query` changes the history and answers exactly as `QueryStep` says |
| Conversation.ConversationHistory.FollowUp | main.py:130-185 | `/follow-up` reads the last turn, then changes the history and answers exactly as `FollowUpStep` says |
| Conversation.ConversationHistory.History | main.py:203-205 | `/history` returns the turns, oldest first |

## Left out

- Flask routing, request parsing, JSON and HTTP: answers are datatypes. Status codes appear only as `Answer.Status`.
- The chat model's text. `Reply(prompt)` stands for it. Only the structure of a prompt is kept (which query, which titles or trend lines, in what order), not its wording. The jobs prompt keeps the postings rather than the summary lines built from them.
- The embedding provider, as a network service: it is the parameter `embed`, and provider failures are not modelled.
- Chat-model failures are not modelled: `Reply(prompt)` always stands for an answer. In main.py's `/query` the search turn is appended (main.py:116) before the chat call (main.py:122), so a failed call there leaves the new turn in the history while the client gets an error. `/follow-up` calls the chat model (main.py:165) before it appends (main.py:176), so a failed call there leaves the history unchanged.
- The float32 arithmetic and the internals of FAISS: vectors are integer and distances exact. Equally distant rows come back lower row first, an order FAISS does not promise.
- The tie order of `value_counts`: pandas leaves it open, so the model fixes first appearance in the table. Missing (NaN) values, which `value_counts` drops, are not modelled; every posting has a title and a category.
- File I/O (`pd.read_csv`, `np.load`, `np.save`, `os.makedirs`, `save_to_json`). The embedding file is an `EmbeddingFile` object whose `present` flag stands for `os.path.exists`. The table is given as postings.
- Retrieval.Retrieve: a query vector of the wrong dimension is the error `DimensionMismatch`, where the source has no check and FAISS raises.
- Retrieval.Retrieve: `k = 0` gives an empty success, where FAISS's search refuses a `k` that is not positive and app/retrieval.py:59 raises. `Retrieval.JobRetrieval.Query` requires a positive `top_k` for that reason. No route passes 0: app.py:305 and main.py:115 use the default of 3.
- Retrieval.JobRetrieval.constructor: where the source raises, construction is modelled as finishing with `ready` false, and `Query` requires `ready`. With an empty table the file is written (app/retrieval.py:31) and the index then fails (app/retrieval.py:34). With vectors of different widths, stacking them fails (app/retrieval.py:46) before anything is written.
- Retrieval.JobRetrieval.LoadEmbeddings: the same two failures leave `ready` false instead of raising; the file is written in the first case and not in the second.
- Retrieval.JobRetrieval.Query: it uses the corrected search, so min(top_k, rows) postings hold only for that search. The source's search is `RetrieveAsWritten`. The two agree when there are at least `top_k` indexed rows, which for the default `top_k` of 3 means at least three. With fewer, the source pads (see Findings).
- Salaries are integers. Their formatting in the jobs prompt is not modelled.
- QueryRoute.Lower: lower-cases only the ASCII capitals, where `str.lower` covers all of Unicode.
- In the route models, `retrieve(q)` is any function from a query to postings, and the route lemmas hold for every one. In the source it is `JobRetrieval.query(q)` with its default `top_k` of 3, which is `RetrieveAsWritten`. The properties of `Retrieval.JobRetrieval.Query` carry over to it only when the index holds at least three rows.
- main.py's copy of `generate_response` (main.py:17-65) has the same branches as app.py's and differs only in prompt wording, so `Responses.GenerateResponse` models both.
- main.py's `/trending` (main.py:189-200) is the same route as app.py's and has the same finding.
- Negative `top_k`, and a `reset_context` or `top_k` given as a value of another type: `top_k` is a natural number, and the reset flag is a boolean.
- Previous jobs without a `business_title` key, which raise in the follow-up prompt.
- Concurrent requests on the shared history: each request is one step.
- The commented-out routes and the browser script (static/js/script.js) are not part of this model.

## Findings

| source | as written | input that shows it | evidently intended | confidence | as-written member | corrected member |
|---|---|---|---|---|---|---|
| app.py:375-386 | `top_k` is read from the request and then not passed on: both lookups use their default of 5 | `GET /trending?top_k=2` on a table with three or more distinct titles returns three or more job trends | both lists limited to the requested `top_k` | high; not executed | QueryRoute.TrendingRouteIgnoresTopK | QueryRoute.TrendingRouteSpec |
| app/retrieval.py:59-62 | with fewer indexed rows than `top_k`, the flat index pads the result with -1, and `iloc[-1]` turns each -1 into the last row of the table | a table of 2 postings queried with the default `top_k` of 3 returns 3 postings, the last posting twice | return only the rows that exist, min(top_k, rows) of them | medium; not executed | Retrieval.PaddedQueryRepeatsLastRow | Retrieval.RetrieveSpec |

/** The live routes of app.py: `/query` (a chain of tests with early returns
    that changes no state) and `/trending`.

    Outside services are parameters or symbols: `retrieve(q)` stands for the
    postings a search for `q` returns, and the lemmas here hold whatever it
    returns; the trend lookup is `Trending` over the loaded rows; every
    chat-model call is recorded as a `ChatCall` with the prompt it is given. */
module QueryRoute {
  import opened Jobs
  import opened Trends
  import opened Responses

  // ---------------------------------------------------------------------------
  // Case-insensitive markers

  /** ASCII lower-casing of one character (`str.lower` on the letters A-Z). */
  function LowerChar(c: char): (d: char)
    ensures 'A' <= c <= 'Z' ==> 'a' <= d <= 'z' && d as int - c as int == 32
    ensures !('A' <= c <= 'Z') ==> d == c
  {
    if 'A' <= c <= 'Z' then (c as int + 32) as char else c
  }

  function Lower(s: string): (t: string)
    ensures |t| == |s|
    ensures forall i :: 0 <= i < |s| ==> t[i] == LowerChar(s[i])
  {
    seq(|s|, i requires 0 <= i < |s| => LowerChar(s[i]))
  }

  /** Lower-casing twice is lower-casing once, and lower-cased text holds no
      capital letter. */
  lemma LowerIdempotent(s: string)
    ensures Lower(Lower(s)) == Lower(s)
    ensures forall i :: 0 <= i < |s| ==> !('A' <= Lower(s)[i] <= 'Z')
  {
    assert forall i :: 0 <= i < |s| ==> Lower(Lower(s))[i] == Lower(s)[i];
  }

  /** `sub` occurs in `s` starting at position `i`. */
  predicate OccursAt(s: string, sub: string, i: nat) {
    i + |sub| <= |s| && s[i..i + |sub|] == sub
  }

  /** Python's `sub in s` for strings. */
  predicate Contains(s: string, sub: string) {
    exists i: nat :: i <= |s| && OccursAt(s, sub, i)
  }

  /** `s` has, at position `i`, a stretch that lower-cases to `sub`. */
  predicate OccursFolded(s: string, sub: string, i: nat) {
    i + |sub| <= |s| && Lower(s[i..i + |sub|]) == sub
  }

  lemma LowerOfSlice(s: string, i: nat, j: nat)
    requires i <= j <= |s|
    ensures Lower(s)[i..j] == Lower(s[i..j])
  {
    assert forall t :: 0 <= t < j - i ==> Lower(s)[i..j][t] == Lower(s[i..j])[t];
  }

  /** Testing a lower-case marker against the lower-cased query finds the marker
      in any mix of capitals: the test holds exactly when some stretch of the
      query lower-cases to the marker. */
  lemma MarkerIgnoresCase(s: string, marker: string)
    ensures Contains(Lower(s), marker) <==> exists i: nat :: OccursFolded(s, marker, i)
  {
    if Contains(Lower(s), marker) {
      var i: nat :| i <= |Lower(s)| && OccursAt(Lower(s), marker, i);
      LowerOfSlice(s, i, i + |marker|);
      assert OccursFolded(s, marker, i);
    }
    if exists i: nat :: OccursFolded(s, marker, i) {
      var i: nat :| OccursFolded(s, marker, i);
      LowerOfSlice(s, i, i + |marker|);
      assert OccursAt(Lower(s), marker, i);
    }
  }

  const FollowUpMarker: string := "tell me more"
  const TrendMarker: string := "trending"
  const CategoryMarker: string := "category"

  // ---------------------------------------------------------------------------
  // /query

  /** Which branch of `/query` a request takes. */
  datatype Intent = Missing | FollowUp | TrendQuery(queryType: string) | Search

  /** The tests of `/query` in their order: a missing or empty query first, then
      the follow-up marker, then the trend marker (with "category" choosing the
      category trends), and otherwise a search. */
  function Classify(query: Option<string>): (i: Intent)
    ensures i == Missing <==> query == None || query == Some([])
    ensures i.TrendQuery? ==> i.queryType == "categories" || i.queryType == "jobs"
    ensures i != Missing ==> query.Some? && |query.value| > 0
  {
    match query
    case None => Missing
    case Some(q) =>
      if q == [] then Missing
      else if Contains(Lower(q), FollowUpMarker) then FollowUp
      else if Contains(Lower(q), TrendMarker) then
        TrendQuery(if Contains(Lower(q), CategoryMarker) then "categories" else "jobs")
      else Search
  }

  /** The request body: `query` may be absent, `last_jobs` defaults to empty. */
  datatype Request = Request(query: Option<string>, lastJobs: seq<Posting>)

  /** The outside calls a request makes, in order. */
  datatype Call = RetrieveCall(text: string) | TrendLookup(queryType: string) | ChatCall(prompt: Prompt)

  const NoDetailsText: string :=
    "I don't have details from your previous query. Please ask again or provide more specifics."

  /** What `/query` answers. */
  datatype Answer =
    | QueryMissing
    | NoDetails(message: string)
    | FollowUpAnswer(response: Response)
    | TrendAnswer(trending: seq<TrendEntry>, response: Response)
    | SearchAnswer(retrievedJobs: seq<Posting>, response: Response)
  {
    /** The HTTP status: the two refusals are 400, everything else 200. */
    function Status(): nat {
      if QueryMissing? || NoDetails? then 400 else 200
    }
  }

  datatype Outcome = Outcome(answer: Answer, calls: seq<Call>)

  /** The chat-model call behind a response, if it needed one. */
  function ChatCalls(r: Response): (calls: seq<Call>)
    ensures |calls| <= 1
    ensures calls != [] <==> r.Reply?
    ensures forall c :: c in calls ==> c == ChatCall(r.prompt)
  {
    if r.Reply? then [ChatCall(r.prompt)] else []
  }

  /** The `/query` route. Trends are looked up with their default of five.
      Every request makes at most one lookup (a retrieval or a trend lookup,
      never both) and at most one chat-model call, the lookup first, and the two
      refusals make no call at all. */
  function HandleQuery(req: Request, rows: seq<Posting>, retrieve: string -> seq<Posting>): (o: Outcome)
    ensures |o.calls| <= 2
    ensures forall i :: 0 < i < |o.calls| ==> o.calls[i].ChatCall?
    ensures |o.calls| == 2 ==> !o.calls[0].ChatCall?
    ensures o.answer.Status() == 400 <==> o.calls == []
  {
    match Classify(req.query)
    case Missing => Outcome(QueryMissing, [])
    case FollowUp =>
      if req.lastJobs == [] then Outcome(NoDetails(NoDetailsText), [])
      else
        var prompt := FollowUpPrompt(req.query.value, Titles(req.lastJobs));
        Outcome(FollowUpAnswer(Reply(prompt)), [ChatCall(prompt)])
    case TrendQuery(t) =>
      var trends := Trending(rows, t, 5);
      var response := GenerateResponse(req.query.value, [], trends);
      Outcome(TrendAnswer(trends, response), [TrendLookup(t)] + ChatCalls(response))
    case Search =>
      var jobs := retrieve(req.query.value);
      var response := GenerateResponse(req.query.value, jobs, []);
      Outcome(SearchAnswer(jobs, response), [RetrieveCall(req.query.value)] + ChatCalls(response))
  }

  /** A request that makes no retrieval and no trend lookup. */
  predicate NoLookups(calls: seq<Call>) {
    forall c :: c in calls ==> c.ChatCall?
  }

  /** A missing or empty query is refused with 400 before anything else happens. */
  lemma MissingQueryRefused(req: Request, rows: seq<Posting>, retrieve: string -> seq<Posting>)
    ensures var o := HandleQuery(req, rows, retrieve);
      (req.query == None || req.query == Some([])) <==> o.answer == QueryMissing
    ensures var o := HandleQuery(req, rows, retrieve);
      o.answer == QueryMissing ==> o.calls == [] && o.answer.Status() == 400
  {
  }

  /** "tell me more" in any capitals wins over every other marker. Without
      previous jobs the answer is the fixed 400 message and nothing is called;
      with them, the one chat-model call gets the previous titles in order and
      the query, and nothing is retrieved or looked up. */
  lemma FollowUpPrecedes(req: Request, rows: seq<Posting>, retrieve: string -> seq<Posting>)
    requires req.query.Some? && req.query.value != []
    requires exists i: nat :: OccursFolded(req.query.value, FollowUpMarker, i)
    ensures var o := HandleQuery(req, rows, retrieve);
      && NoLookups(o.calls)
      && (req.lastJobs == [] ==> o.answer == NoDetails(NoDetailsText) && o.answer.Status() == 400 && o.calls == [])
      && (req.lastJobs != [] ==>
            && o.answer.FollowUpAnswer? && o.answer.Status() == 200
            && o.calls == [ChatCall(FollowUpPrompt(req.query.value, Titles(req.lastJobs)))]
            && o.answer.response == Reply(FollowUpPrompt(req.query.value, Titles(req.lastJobs))))
  {
    MarkerIgnoresCase(req.query.value, FollowUpMarker);
  }

  /** A trend query (and no follow-up marker) looks up the category trends when
      "category" also appears in any capitals and the title trends otherwise,
      retrieves nothing, and answers with well formed trends of at most five
      entries and the response generated from them. */
  lemma TrendQueryMode(req: Request, rows: seq<Posting>, retrieve: string -> seq<Posting>)
    requires req.query.Some? && req.query.value != []
    requires !exists i: nat :: OccursFolded(req.query.value, FollowUpMarker, i)
    requires exists i: nat :: OccursFolded(req.query.value, TrendMarker, i)
    ensures var o := HandleQuery(req, rows, retrieve);
      var mode := if exists i: nat :: OccursFolded(req.query.value, CategoryMarker, i) then "categories" else "jobs";
      && o.answer.TrendAnswer?
      && o.calls == [TrendLookup(mode)] + ChatCalls(o.answer.response)
      && (mode == "categories" ==> o.answer.trending == TrendingCategories(rows, 5))
      && (mode == "jobs" ==> o.answer.trending == TrendingJobs(rows, 5))
      && WellFormedTrends(rows, o.answer.trending, 5)
      && o.answer.response == GenerateResponse(req.query.value, [], o.answer.trending)
  {
    var q := req.query.value;
    MarkerIgnoresCase(q, FollowUpMarker);
    MarkerIgnoresCase(q, TrendMarker);
    MarkerIgnoresCase(q, CategoryMarker);
    TrendingSpec(rows, Classify(req.query).queryType, 5);
  }

  /** Any other non-empty query retrieves with the raw query text, before the one
      possible chat-model call, and answers with what was retrieved. */
  lemma SearchRetrievesRawQuery(req: Request, rows: seq<Posting>, retrieve: string -> seq<Posting>)
    requires req.query.Some? && req.query.value != []
    requires !exists i: nat :: OccursFolded(req.query.value, FollowUpMarker, i)
    requires !exists i: nat :: OccursFolded(req.query.value, TrendMarker, i)
    ensures var o := HandleQuery(req, rows, retrieve);
      && o.answer.SearchAnswer?
      && o.answer.retrievedJobs == retrieve(req.query.value)
      && o.answer.response == GenerateResponse(req.query.value, retrieve(req.query.value), [])
      && o.calls == [RetrieveCall(req.query.value)] + ChatCalls(o.answer.response)
      && (retrieve(req.query.value) == [] <==> o.answer.response == Fixed(SuggestionText))
  {
    MarkerIgnoresCase(req.query.value, FollowUpMarker);
    MarkerIgnoresCase(req.query.value, TrendMarker);
  }

  // ---------------------------------------------------------------------------
  // /trending

  /** What `/trending` answers. */
  datatype TrendingPayload = TrendingPayload(trendingJobs: seq<TrendEntry>, trendingCategories: seq<TrendEntry>)

  /** The `top_k` argument as read: absent or not an integer gives five. */
  function TopKOrDefault(topK: Option<nat>): nat {
    if topK.Some? then topK.value else 5
  }

  /** `/trending` as written: `top_k` is read and then not passed on, so both
      lists are the defaults of five. */
  function TrendingRouteAsWritten(rows: seq<Posting>, topK: Option<nat>): (p: TrendingPayload)
    ensures |p.trendingJobs| <= 5 && |p.trendingCategories| <= 5
  {
    TrendingPayload(TrendingJobs(rows, 5), TrendingCategories(rows, 5))
  }

  /** Asking for fewer than five trends still returns more than asked for,
      whenever the rows have more distinct titles than were asked for. */
  lemma TrendingRouteIgnoresTopK(rows: seq<Posting>, k: nat)
    requires k < 5 && k < |Uniques(Titles(rows))|
    ensures |TrendingRouteAsWritten(rows, Some(k)).trendingJobs| > k
  {
    TrendingJobsSpec(rows, 5);
  }

  /** `/trending` as evidently intended: both lists use the requested `top_k`. */
  function TrendingRoute(rows: seq<Posting>, topK: Option<nat>): (p: TrendingPayload)
    ensures topK.Some? ==> |p.trendingJobs| <= topK.value && |p.trendingCategories| <= topK.value
    ensures topK.None? ==> |p.trendingJobs| <= 5 && |p.trendingCategories| <= 5
  {
    var k := TopKOrDefault(topK);
    TrendingPayload(TrendingJobs(rows, k), TrendingCategories(rows, k))
  }

  /** The corrected route honours `top_k`: both lists are well formed for it,
      each holds exactly as many entries as asked for, or every distinct value
      when there are fewer, and neither leaves out a value more frequent than one
      it keeps. */
  lemma TrendingRouteSpec(rows: seq<Posting>, topK: Option<nat>)
    ensures var p := TrendingRoute(rows, topK);
      var k := if topK.Some? then topK.value else 5;
      && WellFormedTrends(rows, p.trendingJobs, k)
      && WellFormedTrends(rows, p.trendingCategories, k)
      && |p.trendingJobs| == (if k < |Uniques(Titles(rows))| then k else |Uniques(Titles(rows))|)
      && |p.trendingCategories| == (if k < |Uniques(Categories(rows))| then k else |Uniques(Categories(rows))|)
      && Complete(Titles(rows), p.trendingJobs)
      && Complete(Categories(rows), p.trendingCategories)
  {
    var k := TopKOrDefault(topK);
    TrendingJobsSpec(rows, k);
    TrendingCategoriesSpec(rows, k);
  }
}

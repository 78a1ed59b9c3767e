/** The older service in main.py: one process-wide conversation history that
    `/query` clears and appends to, `/follow-up` reads and appends to, and
    `/history` returns.

    `QueryStep` and `FollowUpStep` say what one request does to the history;
    `ConversationHistory` is the history itself, changed in place by its
    methods, each proved to do what the step says. As in the routes module,
    `retrieve(q)` stands for the postings the retrieval system returns for `q`
    and `Reply(p)` for the chat model's text for the prompt `p`. */
module Conversation {
  import opened Jobs
  import opened Trends
  import opened Responses
  import QR = QueryRoute

  /** One entry of the history. Turns appended by a search carry no response
      message; seeded turns carry a fixed one and follow-up turns the chat
      model's reply. */
  datatype Turn = Turn(query: string, retrievedJobs: seq<Posting>, responseMessage: Option<Response>)

  /** The history the service starts with: the empty list of main.py:12 is
      replaced by these two turns before any request is served. */
  function InitialHistory(): (h: seq<Turn>)
    ensures |h| == 2
    ensures forall i :: 0 <= i < |h| ==> h[i].retrievedJobs == [] && h[i].responseMessage.Some?
  {
    [ Turn("Show me software engineering jobs in New York.", [],
           Some(Fixed("Here are some jobs for software engineers in New York."))),
      Turn("Tell me more about the first job.", [],
           Some(Fixed("The first job is a Software Engineer role at XYZ."))) ]
  }

  /** What `/query` answers. */
  datatype QueryAnswer =
    | QueryMissing
    | TrendAnswer(trending: seq<TrendEntry>, response: Response)
    | SearchAnswer(retrievedJobs: seq<Posting>, response: Response, history: seq<Turn>)

  /** What `/follow-up` answers. */
  datatype FollowUpAnswer = FollowUpMissing | NoHistory | FollowUpReply(response: Response)

  /** The history after a request, and the answer. */
  datatype Step<A> = Step(history: seq<Turn>, answer: A)

  /** `/query`: a missing or empty query is refused first, so a reset without a
      query clears nothing; then the history is cleared if asked; a trend query
      answers with the trends and leaves the history alone; any other query is
      retrieved for and appended as a new turn. */
  function QueryStep(h: seq<Turn>, query: Option<string>, resetContext: bool,
                     rows: seq<Posting>, retrieve: string -> seq<Posting>): (s: Step<QueryAnswer>)
    ensures s.answer.QueryMissing? <==> query.None? || query.value == []
    ensures s.answer.QueryMissing? ==> s.history == h
    ensures s.answer.TrendAnswer? ==> s.history == if resetContext then [] else h
    ensures s.answer.SearchAnswer? ==>
      && query.Some?
      && s.history == (if resetContext then [] else h) + [Turn(query.value, retrieve(query.value), None)]
      && s.answer.retrievedJobs == retrieve(query.value)
      && s.answer.history == s.history
  {
    if query.None? || query.value == [] then Step(h, QueryMissing)
    else
      var q := query.value;
      var kept := if resetContext then [] else h;
      if QR.Contains(QR.Lower(q), QR.TrendMarker) then
        var mode := if QR.Contains(QR.Lower(q), QR.CategoryMarker) then "categories" else "jobs";
        var trends := Trending(rows, mode, 5);
        Step(kept, TrendAnswer(trends, GenerateResponse(q, [], trends)))
      else
        var jobs := retrieve(q);
        var next := kept + [Turn(q, jobs, None)];
        Step(next, SearchAnswer(jobs, GenerateResponse(q, jobs, []), next))
  }

  /** `/follow-up`: a missing or empty query is refused, then an empty history;
      otherwise the last turn's query and job titles go into the prompt, and a
      turn carrying the last turn's jobs forward is appended. The previous jobs
      may be empty: nothing checks them. */
  function FollowUpStep(h: seq<Turn>, query: Option<string>): (s: Step<FollowUpAnswer>)
    ensures s.answer.FollowUpMissing? <==> query.None? || query.value == []
    ensures s.answer.NoHistory? <==> query.Some? && query.value != [] && h == []
    ensures !s.answer.FollowUpReply? ==> s.history == h
    ensures s.answer.FollowUpReply? ==>
      && h != [] && query.Some?
      && |s.history| == |h| + 1 && s.history[..|h|] == h
      && s.history[|h|] == Turn(query.value, h[|h| - 1].retrievedJobs, Some(s.answer.response))
  {
    if query.None? || query.value == [] then Step(h, FollowUpMissing)
    else if h == [] then Step(h, NoHistory)
    else
      var last := h[|h| - 1];
      var response := Reply(HistoryFollowUpPrompt(last.query, Titles(last.retrievedJobs), query.value));
      var next := h + [Turn(query.value, last.retrievedJobs, Some(response))];
      assert next[..|h|] == h;
      Step(next, FollowUpReply(response))
  }

  // ---------------------------------------------------------------------------
  // Properties of the steps

  /** A missing query changes nothing, whatever the reset flag says. */
  lemma MissingQueryKeepsHistory(h: seq<Turn>, query: Option<string>, resetContext: bool,
                                 rows: seq<Posting>, retrieve: string -> seq<Posting>)
    requires query.None? || query.value == []
    ensures QueryStep(h, query, resetContext, rows, retrieve) == Step(h, QueryMissing)
    ensures FollowUpStep(h, query) == Step(h, FollowUpMissing)
  {
  }

  /** With the reset flag, the earlier turns are gone and the query is still
      served, exactly as it would be on an empty history: a trend query leaves an
      empty history, a search a history of its own turn alone. */
  lemma ResetClearsThenServes(h: seq<Turn>, q: string, rows: seq<Posting>, retrieve: string -> seq<Posting>)
    requires q != []
    ensures var s := QueryStep(h, Some(q), true, rows, retrieve);
      && (s.answer.TrendAnswer? ==> s.history == [])
      && (s.answer.SearchAnswer? ==> s.history == [Turn(q, retrieve(q), None)])
      && (s.answer.TrendAnswer? || s.answer.SearchAnswer?)
      && s == QueryStep([], Some(q), false, rows, retrieve)
  {
  }

  /** A trend query never changes the history (short of a reset). It looks up
      category trends exactly when "category" also appears and title trends
      otherwise, five at most, answers with them, and builds the response from
      them alone. */
  lemma TrendQueryKeepsHistory(h: seq<Turn>, q: string, rows: seq<Posting>, retrieve: string -> seq<Posting>)
    requires q != [] && QR.Contains(QR.Lower(q), QR.TrendMarker)
    ensures var s := QueryStep(h, Some(q), false, rows, retrieve);
      && s.history == h && s.answer.TrendAnswer?
      && s.answer.trending == (if QR.Contains(QR.Lower(q), QR.CategoryMarker)
                               then TrendingCategories(rows, 5) else TrendingJobs(rows, 5))
      && s.answer.response == GenerateResponse(q, [], s.answer.trending)
      && WellFormedTrends(rows, s.answer.trending, 5)
  {
    var mode := if QR.Contains(QR.Lower(q), QR.CategoryMarker) then "categories" else "jobs";
    TrendingSpec(rows, mode, 5);
  }

  /** A search appends exactly one turn, at the end, holding the query and what
      was retrieved for it, and leaves every earlier turn as it was. */
  lemma SearchAppendsOneTurn(h: seq<Turn>, q: string, rows: seq<Posting>, retrieve: string -> seq<Posting>)
    requires q != [] && !QR.Contains(QR.Lower(q), QR.TrendMarker)
    ensures var s := QueryStep(h, Some(q), false, rows, retrieve);
      && |s.history| == |h| + 1
      && s.history[..|h|] == h
      && s.history[|h|] == Turn(q, retrieve(q), None)
      && s.answer.SearchAnswer? && s.answer.history == s.history
      && s.answer.retrievedJobs == retrieve(q)
  {
    var s := QueryStep(h, Some(q), false, rows, retrieve);
    assert s.history[..|h|] == h;
  }

  /** A follow-up on an empty history is refused and changes nothing. */
  lemma FollowUpNeedsHistory(q: string)
    requires q != []
    ensures FollowUpStep([], Some(q)) == Step([], NoHistory)
  {
  }

  /** A follow-up appends one turn that carries the last turn's jobs forward, and
      its prompt holds the last turn's query and the titles of its jobs in order. */
  lemma FollowUpCarriesJobs(h: seq<Turn>, q: string)
    requires q != [] && h != []
    ensures var s := FollowUpStep(h, Some(q));
      var last := h[|h| - 1];
      && |s.history| == |h| + 1
      && s.history[..|h|] == h
      && s.history[|h|].query == q
      && s.history[|h|].retrievedJobs == last.retrievedJobs
      && s.answer == FollowUpReply(Reply(HistoryFollowUpPrompt(last.query, Titles(last.retrievedJobs), q)))
      && s.history[|h|].responseMessage == Some(s.answer.response)
  {
    var s := FollowUpStep(h, Some(q));
    assert s.history[..|h|] == h;
  }

  /** Without a reset, every request keeps the earlier turns and adds at most one. */
  lemma StepsOnlyAppend(h: seq<Turn>, query: Option<string>, rows: seq<Posting>, retrieve: string -> seq<Posting>)
    ensures var s := QueryStep(h, query, false, rows, retrieve);
      |h| <= |s.history| <= |h| + 1 && s.history[..|h|] == h
    ensures var s := FollowUpStep(h, query);
      |h| <= |s.history| <= |h| + 1 && s.history[..|h|] == h
  {
    var s := QueryStep(h, query, false, rows, retrieve);
    assert s.history[..|h|] == h;
    var f := FollowUpStep(h, query);
    assert f.history[..|h|] == h;
  }

  /** On the seeded history a follow-up goes ahead, with an empty list of
      previous jobs, since the seeded turns hold none. */
  lemma InitialFollowUpProceedsWithoutJobs(q: string)
    requires q != []
    ensures var s := FollowUpStep(InitialHistory(), Some(q));
      && s.answer.FollowUpReply?
      && s.answer.response == Reply(HistoryFollowUpPrompt("Tell me more about the first job.", [], q))
      && s.history[|s.history| - 1].retrievedJobs == []
  {
    var h := InitialHistory();
    assert Titles(h[1].retrievedJobs) == [];
  }

  /** After a reset with a trend query, a follow-up finds no history. */
  lemma ResetThenFollowUpHasNoHistory(h: seq<Turn>, q: string, f: string,
                                      rows: seq<Posting>, retrieve: string -> seq<Posting>)
    requires q != [] && f != [] && QR.Contains(QR.Lower(q), QR.TrendMarker)
    ensures var s := QueryStep(h, Some(q), true, rows, retrieve);
      FollowUpStep(s.history, Some(f)).answer == NoHistory
  {
  }

  /** A run of follow-ups, one per query. */
  function FollowUps(h: seq<Turn>, queries: seq<string>): seq<Turn>
    decreases |queries|
  {
    if queries == [] then h
    else FollowUps(FollowUpStep(h, Some(queries[0])).history, queries[1..])
  }

  /** However many follow-ups come after a search, each appends a turn and the
      last turn still holds the jobs that search retrieved. */
  lemma {:induction false} FollowUpChainKeepsJobs(h: seq<Turn>, queries: seq<string>)
    requires h != []
    requires forall i :: 0 <= i < |queries| ==> queries[i] != []
    ensures var r := FollowUps(h, queries);
      |r| == |h| + |queries| && r[|r| - 1].retrievedJobs == h[|h| - 1].retrievedJobs
    decreases |queries|
  {
    if queries != [] {
      var next := FollowUpStep(h, Some(queries[0])).history;
      FollowUpCarriesJobs(h, queries[0]);
      assert forall i :: 0 <= i < |queries[1..]| ==> queries[1..][i] == queries[i + 1];
      FollowUpChainKeepsJobs(next, queries[1..]);
    }
  }

  /** Every turn's jobs are either empty or what was retrieved for the query of
      the same or an earlier turn. */
  predicate JobsFromRetrieval(h: seq<Turn>, retrieve: string -> seq<Posting>) {
    forall i :: 0 <= i < |h| ==>
      h[i].retrievedJobs == [] || exists j :: 0 <= j <= i && RetrievedFor(h, j, h[i].retrievedJobs, retrieve)
  }

  /** `jobs` is what was retrieved for the query of turn `j`. */
  predicate RetrievedFor(h: seq<Turn>, j: int, jobs: seq<Posting>, retrieve: string -> seq<Posting>)
    requires 0 <= j < |h|
  {
    jobs == retrieve(h[j].query)
  }

  /** The seeded history holds no jobs. */
  lemma InitialJobsFromRetrieval(retrieve: string -> seq<Posting>)
    ensures JobsFromRetrieval(InitialHistory(), retrieve)
  {
  }

  /** Appending a turn keeps the earlier turns' evidence. */
  lemma AppendKeepsProvenance(h: seq<Turn>, t: Turn, retrieve: string -> seq<Posting>)
    requires JobsFromRetrieval(h, retrieve)
    requires t.retrievedJobs == [] || exists j :: 0 <= j <= |h| && RetrievedFor(h + [t], j, t.retrievedJobs, retrieve)
    ensures JobsFromRetrieval(h + [t], retrieve)
  {
    var n := h + [t];
    forall i | 0 <= i < |n| && n[i].retrievedJobs != []
      ensures exists j :: 0 <= j <= i && RetrievedFor(n, j, n[i].retrievedJobs, retrieve)
    {
      if i < |h| {
        var j :| 0 <= j <= i && RetrievedFor(h, j, h[i].retrievedJobs, retrieve);
        assert RetrievedFor(n, j, n[i].retrievedJobs, retrieve);
      }
    }
  }

  /** Both routes keep every turn's jobs traceable to a retrieval: a search
      stores what it retrieved, and a follow-up copies jobs that were already
      traceable. */
  lemma StepsKeepProvenance(h: seq<Turn>, query: Option<string>, resetContext: bool,
                            rows: seq<Posting>, retrieve: string -> seq<Posting>)
    requires JobsFromRetrieval(h, retrieve)
    ensures JobsFromRetrieval(QueryStep(h, query, resetContext, rows, retrieve).history, retrieve)
    ensures JobsFromRetrieval(FollowUpStep(h, query).history, retrieve)
  {
    if query.Some? && query.value != [] {
      var q := query.value;
      var kept: seq<Turn> := if resetContext then [] else h;
      if !QR.Contains(QR.Lower(q), QR.TrendMarker) {
        assert RetrievedFor(kept + [Turn(q, retrieve(q), None)], |kept|, retrieve(q), retrieve);
        AppendKeepsProvenance(kept, Turn(q, retrieve(q), None), retrieve);
      }
      if h != [] {
        var last := h[|h| - 1];
        var t := Turn(q, last.retrievedJobs, Some(Reply(HistoryFollowUpPrompt(last.query, Titles(last.retrievedJobs), q))));
        if last.retrievedJobs != [] {
          var j :| 0 <= j <= |h| - 1 && RetrievedFor(h, j, last.retrievedJobs, retrieve);
          assert RetrievedFor(h + [t], j, t.retrievedJobs, retrieve);
        }
        AppendKeepsProvenance(h, t, retrieve);
      }
    }
  }

  // ---------------------------------------------------------------------------
  // The history itself

  class ConversationHistory {
    var turns: seq<Turn>

    /** The service starts with the seeded history. */
    constructor ()
      ensures turns == InitialHistory()
    {
      turns := InitialHistory();
    }

    /** `/query`, changing the history in place. */
    method Query(query: Option<string>, resetContext: bool, rows: seq<Posting>, retrieve: string -> seq<Posting>)
      returns (answer: QueryAnswer)
      modifies this
      ensures turns == QueryStep(old(turns), query, resetContext, rows, retrieve).history
      ensures answer == QueryStep(old(turns), query, resetContext, rows, retrieve).answer
    {
      if query.None? || query.value == [] {
        return QueryMissing;
      }
      var q := query.value;
      if resetContext {
        turns := [];
      }
      if QR.Contains(QR.Lower(q), QR.TrendMarker) {
        var mode := if QR.Contains(QR.Lower(q), QR.CategoryMarker) then "categories" else "jobs";
        var trends := Trending(rows, mode, 5);
        return TrendAnswer(trends, GenerateResponse(q, [], trends));
      }
      var jobs := retrieve(q);
      turns := turns + [Turn(q, jobs, None)];
      answer := SearchAnswer(jobs, GenerateResponse(q, jobs, []), turns);
    }

    /** `/follow-up`, reading the last turn before appending. */
    method FollowUp(query: Option<string>) returns (answer: FollowUpAnswer)
      modifies this
      ensures turns == FollowUpStep(old(turns), query).history
      ensures answer == FollowUpStep(old(turns), query).answer
    {
      if query.None? || query.value == [] {
        return FollowUpMissing;
      }
      if turns == [] {
        return NoHistory;
      }
      var last := turns[|turns| - 1];
      var response := Reply(HistoryFollowUpPrompt(last.query, Titles(last.retrievedJobs), query.value));
      turns := turns + [Turn(query.value, last.retrievedJobs, Some(response))];
      answer := FollowUpReply(response);
    }

    /** `/history`: the turns so far, oldest first. */
    method History() returns (h: seq<Turn>)
      ensures h == turns
    {
      h := turns;
    }
  }
}

/** Response shaping (generate_response in app.py, with the same branches at
    main.py:17-65).

    The chat model is outside the model: `Reply(p)` stands for whatever text it
    returns for the prompt `p`, so a `Reply` is exactly one chat-model call and a
    `Fixed` text is none. Only the structure of a prompt is kept (which query,
    which lines or postings, in which order), not its wording. */
module Responses {
  import opened Jobs
  import opened Trends
  import opened Decimal

  datatype Prompt =
    | TrendsPrompt(userQuery: string, trendLines: seq<string>)
    | JobsPrompt(userQuery: string, jobs: seq<Posting>)
      /** app.py's follow-up: the titles the client sent back, then the query. */
    | FollowUpPrompt(userQuery: string, previousTitles: seq<string>)
      /** main.py's follow-up: the previous turn's query and titles, then the query. */
    | HistoryFollowUpPrompt(previousQuery: string, previousTitles: seq<string>, userQuery: string)

  datatype Response = Reply(prompt: Prompt) | Fixed(text: string)

  const SuggestionText: string :=
    "I'm sorry, I couldn't process your query. Here are some suggestions:\n"
    + "- Try searching for a specific job title or category.\n"
    + "- Include a location or salary range if relevant.\n"
    + "- Ask about trending jobs or categories."

  const NoMatchesText: string :=
    "I'm sorry, I couldn't find any jobs matching your query. Please try refining your search."

  const ListingsSuffix: string := " listings)"

  /** Line `i` (from 0) of the trend details: "{i+1}. {label} ({count} listings)",
      the label being the entry's `business_title` when it has one and its
      `job_category` otherwise. */
  function TrendLine(i: nat, e: TrendEntry): (line: string)
    ensures ParseTrendLine(line) == Some(TrendLineFields(i + 1, e.Label(), e.count))
  {
    NumberedTrendLineReadsBack(i + 1, e.Label(), e.count);
    Show(i + 1) + (". " + (e.Label() + " (" + Show(e.count) + ListingsSuffix))
  }

  function TrendLines(trends: seq<TrendEntry>): (lines: seq<string>)
    ensures |lines| == |trends|
  {
    seq(|trends|, i requires 0 <= i < |trends| => TrendLine(i, trends[i]))
  }

  /** The fields a trend line carries. */
  datatype TrendLineFields = TrendLineFields(position: nat, text: string, count: nat)

  /** Reads "{label} ({count} listings)" back from the end of the text, so that
      the label may hold any text. */
  function ParseLabelAndCount(body: string): Option<(string, nat)> {
    if |body| < |ListingsSuffix| || body[|body| - |ListingsSuffix|..] != ListingsSuffix then None
    else
      var head := body[..|body| - |ListingsSuffix|];
      var cnt := TrailingDigits(head);
      if |cnt| == 0 || |head| < |cnt| + 2 || head[|head| - |cnt| - 2..|head| - |cnt|] != " (" then None
      else Some((head[..|head| - |cnt| - 2], Value(cnt)))
  }

  /** Reads a trend line back: the leading number, ". ", then the label and count. */
  function ParseTrendLine(line: string): Option<TrendLineFields> {
    var num := LeadingDigits(line);
    if |num| == 0 || |line| < |num| + 2 || line[|num|..|num| + 2] != ". " then None
    else
      match ParseLabelAndCount(line[|num| + 2..])
      case None => None
      case Some((name, count)) => Some(TrendLineFields(Value(num), name, count))
  }

  lemma LabelAndCountReadBack(name: string, count: nat)
    ensures ParseLabelAndCount(name + " (" + Show(count) + ListingsSuffix) == Some((name, count))
  {
    var c := Show(count);
    var body := name + " (" + c + ListingsSuffix;
    assert body[|body| - |ListingsSuffix|..] == ListingsSuffix;
    var head := body[..|body| - |ListingsSuffix|];
    assert head == (name + " (") + c;
    TrailingDigitsOf(name + " (", c);
    assert head[|head| - |c| - 2..|head| - |c|] == " (";
    assert head[..|head| - |c| - 2] == name;
    ValueOfShow(count);
  }

  /** A line made of a number, ". " and a body reads back as the number and
      whatever the body reads back as. */
  lemma NumberedLineReadsBack(n: string, body: string)
    requires n != [] && AllDigits(n)
    ensures ParseTrendLine(n + (". " + body)) ==
      match ParseLabelAndCount(body)
      case None => None
      case Some((name, count)) => Some(TrendLineFields(Value(n), name, count))
  {
    var line := n + (". " + body);
    LeadingDigitsOf(n, ". " + body);
    assert line[|n|..|n| + 2] == ". ";
    assert line[|n| + 2..] == body;
  }

  /** A numbered line "{position}. {label} ({count} listings)" reads back as its
      position, label and count. */
  lemma NumberedTrendLineReadsBack(position: nat, name: string, count: nat)
    ensures ParseTrendLine(Show(position) + (". " + (name + " (" + Show(count) + ListingsSuffix)))
      == Some(TrendLineFields(position, name, count))
  {
    var body := name + " (" + Show(count) + ListingsSuffix;
    NumberedLineReadsBack(Show(position), body);
    LabelAndCountReadBack(name, count);
    ValueOfShow(position);
  }

  /** The trend details list one line per entry, in order, and each line reads
      back as its position, label and count. */
  lemma TrendLinesReadBack(trends: seq<TrendEntry>)
    ensures |TrendLines(trends)| == |trends|
    ensures forall i :: 0 <= i < |trends| ==>
      ParseTrendLine(TrendLines(trends)[i]) == Some(TrendLineFields(i + 1, trends[i].Label(), trends[i].count))
  {
    forall i | 0 <= i < |trends|
      ensures ParseTrendLine(TrendLines(trends)[i]) == Some(TrendLineFields(i + 1, trends[i].Label(), trends[i].count))
    {
      assert TrendLines(trends)[i] == TrendLine(i, trends[i]);
    }
  }

  /** generate_response(user_query, retrieved_jobs, trends). A missing list is the
      empty list. Trends win over jobs; with neither, the fixed suggestions are
      returned without a chat-model call. The no-matches text of the inner check
      is never returned: that check sits in a branch where the jobs are non-empty. */
  function GenerateResponse(userQuery: string, retrievedJobs: seq<Posting>, trends: seq<TrendEntry>)
    : (r: Response)
    ensures r != Fixed(NoMatchesText)
    ensures r.Fixed? <==> trends == [] && retrievedJobs == []
    ensures r.Fixed? ==> r.text == SuggestionText
    ensures trends != [] ==>
      && r.Reply? && r.prompt.TrendsPrompt? && r.prompt.userQuery == userQuery
      && |r.prompt.trendLines| == |trends|
      && forall i :: 0 <= i < |trends| ==>
           ParseTrendLine(r.prompt.trendLines[i]) == Some(TrendLineFields(i + 1, trends[i].Label(), trends[i].count))
    ensures trends == [] && retrievedJobs != [] ==> r == Reply(JobsPrompt(userQuery, retrievedJobs))
  {
    if trends != [] then
      TrendLinesReadBack(trends);
      Reply(TrendsPrompt(userQuery, TrendLines(trends)))
    else if retrievedJobs != [] then
      if retrievedJobs == [] then Fixed(NoMatchesText)
      else Reply(JobsPrompt(userQuery, retrievedJobs))
    else Fixed(SuggestionText)
  }
}

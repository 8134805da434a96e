/** `SearchResults`: the message search panel. A non-blank query is sent to
    the search service (known only by name, so its answer is a parameter),
    the hits are shown newest first, and each hit's time is shown as a day
    bucket. */
module SearchResults {
  import opened Common

  /** A search hit. `timestamp` is the message's store time in milliseconds. */
  datatype Hit = Hit(chatId: string, messageId: string, chatTitle: string, content: string, timestamp: int)

  const SearchFailed: string := "Failed to search messages"
  const UntitledLabel: string := "Untitled Chat"

  // ---------------------------------------------------------------------------
  // The sort: `(a, b) => bTime - aTime`

  predicate NewestFirst(s: seq<Hit>) {
    forall i, j :: 0 <= i < j < |s| ==> s[i].timestamp >= s[j].timestamp
  }

  /** Puts `h` in front of the first hit that is not newer than it. */
  function Insert(h: Hit, s: seq<Hit>): seq<Hit> {
    if s == [] then [h]
    else if s[0].timestamp <= h.timestamp then [h] + s
    else [s[0]] + Insert(h, s[1..])
  }

  /** The hits ordered by descending timestamp. */
  function SortNewestFirst(s: seq<Hit>): seq<Hit> {
    if s == [] then [] else Insert(s[0], SortNewestFirst(s[1..]))
  }

  /** No hit of the list is newer than `t`. */
  predicate NoneNewer(s: seq<Hit>, t: int) {
    forall k :: 0 <= k < |s| ==> s[k].timestamp <= t
  }

  lemma {:induction false} InsertNoneNewer(h: Hit, s: seq<Hit>, t: int)
    requires NoneNewer(s, t) && h.timestamp <= t
    ensures NoneNewer(Insert(h, s), t)
  {
    if s != [] && s[0].timestamp > h.timestamp {
      InsertNoneNewer(h, s[1..], t);
    }
  }

  lemma {:induction false} InsertOrdered(h: Hit, s: seq<Hit>)
    requires NewestFirst(s)
    ensures NewestFirst(Insert(h, s))
  {
    if s != [] && s[0].timestamp > h.timestamp {
      InsertOrdered(h, s[1..]);
      InsertNoneNewer(h, s[1..], s[0].timestamp);
    }
  }

  lemma {:induction false} InsertCounts(h: Hit, s: seq<Hit>)
    ensures multiset(Insert(h, s)) == multiset(s) + multiset{h}
  {
    if s != [] && s[0].timestamp > h.timestamp {
      InsertCounts(h, s[1..]);
      assert s == [s[0]] + s[1..];
    }
  }

  /** The shown list is newest first and holds exactly the hits the service
      returned, each as often as it was returned. */
  lemma {:induction false} SortNewestFirstSpec(s: seq<Hit>)
    ensures NewestFirst(SortNewestFirst(s))
    ensures multiset(SortNewestFirst(s)) == multiset(s)
    ensures |SortNewestFirst(s)| == |s|
  {
    if s != [] {
      SortNewestFirstSpec(s[1..]);
      InsertOrdered(s[0], SortNewestFirst(s[1..]));
      InsertCounts(s[0], SortNewestFirst(s[1..]));
      assert s == [s[0]] + s[1..];
    }
    assert |multiset(SortNewestFirst(s))| == |multiset(s)|;
  }

  /** The hits with timestamp `t`, in their order. */
  function AtTime(s: seq<Hit>, t: int): seq<Hit> {
    if s == [] then [] else (if s[0].timestamp == t then [s[0]] else []) + AtTime(s[1..], t)
  }

  lemma {:induction false} InsertAtTime(h: Hit, s: seq<Hit>, t: int)
    ensures AtTime(Insert(h, s), t) == (if h.timestamp == t then [h] else []) + AtTime(s, t)
  {
    if s != [] && s[0].timestamp > h.timestamp {
      InsertAtTime(h, s[1..], t);
      var r := [s[0]] + Insert(h, s[1..]);
      assert r[0] == s[0] && r[1..] == Insert(h, s[1..]);
    } else {
      var r := [h] + s;
      assert r[0] == h && r[1..] == s;
    }
  }

  /** The sort is stable: hits with the same timestamp keep the order the
      service gave them. */
  lemma {:induction false} SortKeepsTies(s: seq<Hit>, t: int)
    ensures AtTime(SortNewestFirst(s), t) == AtTime(s, t)
  {
    if s != [] {
      SortKeepsTies(s[1..], t);
      InsertAtTime(s[0], SortNewestFirst(s[1..]), t);
    }
  }

  // ---------------------------------------------------------------------------
  // `formatTimestamp`

  /** A missing time shows nothing; a day difference of 0 or 1 shows the
      time after "Today at " or "Yesterday at "; any other difference, a
      negative one for a time ahead of the clock included, shows the date. */
  function FormatTimestamp(timestamp: Option<int>, now: int): (r: Label)
    ensures timestamp.None? ==> r == Fixed("")
    ensures timestamp.Some? ==>
              var d := now - timestamp.value;
              && (0 <= d < MsPerDay ==> r == Prefixed("Today at ", TimeHourMinute(timestamp.value)))
              && (MsPerDay <= d < 2 * MsPerDay ==> r == Prefixed("Yesterday at ", TimeHourMinute(timestamp.value)))
              && (d < 0 || 2 * MsPerDay <= d ==> r == Localized(MonthDayYear(timestamp.value)))
  {
    if timestamp.None? then Fixed("")
    else
      var days := DayDiff(now, timestamp.value);
      if days == 0 then Prefixed("Today at ", TimeHourMinute(timestamp.value))
      else if days == 1 then Prefixed("Yesterday at ", TimeHourMinute(timestamp.value))
      else Localized(MonthDayYear(timestamp.value))
  }

  // ---------------------------------------------------------------------------
  // Presentation rules

  /** A hit's preview: the plain text for a blank query, otherwise the text
      with the query's matches marked (the matching itself is a regular
      expression built from the query and is not modelled). */
  datatype Preview = Plain(text: string) | Marked(text: string, query: string)

  function Highlight(text: string, query: string): (r: Preview)
    ensures IsBlank(query) ==> r == Plain(text)
    ensures !IsBlank(query) ==> r == Marked(text, query)
  {
    if IsBlank(query) then Plain(text) else Marked(text, query)
  }

  /** A hit's heading: its conversation's title, or `Untitled Chat` for an
      empty one; never empty. */
  function TitleOf(h: Hit): (r: string)
    ensures h.chatTitle != "" ==> r == h.chatTitle
    ensures h.chatTitle == "" ==> r == UntitledLabel
    ensures r != ""
  {
    if h.chatTitle != "" then h.chatTitle else UntitledLabel
  }

  /** `${n} result${n !== 1 ? 's' : ''} found`. */
  function ResultsHeader(n: nat): string {
    NatToString(n) + " result" + (if n != 1 then "s" else "") + " found"
  }

  /** The header says "results" for every count but one, and "result"
      for exactly one hit. */
  lemma ResultsHeaderPlural(n: nat)
    ensures EndsWith(ResultsHeader(n), " results found") <==> n != 1
  {
    var plural := " results found";
    if n == 1 {
      assert ResultsHeader(n) == "1 result found";
      assert ResultsHeader(n)[0] != plural[0];
    } else {
      var d := NatToString(n);
      assert ResultsHeader(n) == d + plural;
      assert (d + plural)[|d|..] == plural;
    }
  }

  /** The header starts with the count written in decimal. */
  lemma ResultsHeaderCount(n: nat)
    ensures var digits := NatToString(n);
            StartsWith(ResultsHeader(n), digits) && AllDigits(digits) && DecimalValue(digits) == n
  {
    NatToStringValue(n);
    var d := NatToString(n);
    var rest := " result" + (if n != 1 then "s" else "") + " found";
    assert ResultsHeader(n) == d + rest;
    assert (d + rest)[..|d|] == d;
  }

  /** One listed hit: its heading, its preview and its time. */
  datatype Row = Row(chatId: string, messageId: string, title: string, preview: Preview, time: Label)

  function RowFor(h: Hit, query: string, now: int): Row {
    Row(h.chatId, h.messageId, TitleOf(h), Highlight(h.content, query), FormatTimestamp(Some(h.timestamp), now))
  }

  /** What the panel shows. */
  datatype View = Spinner | ErrorView(message: string) | NoResults(query: string) | Listed(header: string, rows: seq<Row>)

  /** A spinner while loading, then the error, then the notice for no hits;
      otherwise the header and one row per hit in the order held, each with
      its ids, the hit's title or the untitled label, the query's
      highlighting and the hit's time. */
  function Render(loading: bool, error: Option<string>, results: seq<Hit>, query: string, now: int): (r: View)
    ensures loading ==> r == Spinner
    ensures !loading && TruthyText(error) ==> r == ErrorView(error.value)
    ensures !loading && !TruthyText(error) && results == [] ==> r == NoResults(query)
    ensures !loading && !TruthyText(error) && results != [] ==> r.Listed? && r.header == ResultsHeader(|results|)
    ensures r.Listed? ==> |r.rows| == |results| && forall i :: 0 <= i < |results| ==>
              && r.rows[i].chatId == results[i].chatId && r.rows[i].messageId == results[i].messageId
              && r.rows[i].title == TitleOf(results[i]) && r.rows[i].title != ""
              && r.rows[i].preview == Highlight(results[i].content, query)
              && r.rows[i].time == FormatTimestamp(Some(results[i].timestamp), now)
  {
    if loading then Spinner
    else if TruthyText(error) then ErrorView(error.value)
    else if results == [] then NoResults(query)
    else Listed(ResultsHeader(|results|), seq(|results|, i requires 0 <= i < |results| => RowFor(results[i], query, now)))
  }

  class SearchPanel {
    var results: seq<Hit>
    var loading: bool
    var error: Option<string>
    /** The queries sent to the search service so far. */
    ghost var searches: seq<string>

    constructor ()
      ensures results == [] && !loading && error == None && searches == []
    {
      results, loading, error := [], false, None;
      searches := [];
    }

    /** `performSearch` once the debounce has fired: a blank query empties
        the results and asks nothing; otherwise the answer of the service
        is shown newest first, or on a failure the results are emptied and
        the error is set. Loading ends either way. */
    method PerformSearch(query: string, answer: Result<seq<Hit>>)
      modifies this
      ensures IsBlank(query) ==>
                results == [] && loading == old(loading) && error == old(error) && searches == old(searches)
      ensures !IsBlank(query) ==>
                && searches == old(searches) + [query] && !loading
                && (answer.Success? ==> error == None && results == SortNewestFirst(answer.value))
                && (answer.Success? ==> NewestFirst(results) && multiset(results) == multiset(answer.value))
                && (answer.Failure? ==> error == Some(SearchFailed) && results == [])
    {
      if IsBlank(query) {
        results := [];
        return;
      }
      loading := true;
      error := None;
      searches := searches + [query];
      if answer.Success? {
        SortNewestFirstSpec(answer.value);
        results := SortNewestFirst(answer.value);
      } else {
        error := Some(SearchFailed);
        results := [];
      }
      loading := false;
    }
  }
}

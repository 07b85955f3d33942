/** The remaining routes of the server: `/search` behind the session check
    and the daily limit (server.js:344-398), and the page of a saved result
    (server.js:645-672) with its id check, its `escapeHTML` and its list of
    sources. */
module Routes {
  import opened Wrappers
  import opened Text
  import opened Scoring
  import opened RateLimit
  import opened Orchestrator

  // ---------------------------------------------------------------------------
  // POST /search
  // ---------------------------------------------------------------------------

  /** The answers of `/search`: 401 from the session check, 429 from the
      limiter, 400 for an empty query, the "no results" body, or the ranked
      selection. */
  datatype SearchReply =
    | Unauthenticated
    | TooManyRequests(error: string, currentUsage: nat, limit: int)
    | EmptyQuery
    | NoResults
    | Ranked(selection: Selection)

  /** One `/search` request: the answer and the usage file afterwards. `found`
      is what `searchWeb(query)` resolves to; it is only consulted for a
      non-empty query. */
  function SearchRoute(token: Option<string>, secret: string, file: UsageFile, fp: string, limit: int,
                       writeOk: bool, query: Option<string>, found: seq<SearchItem>,
                       parseHost: string -> Option<string>, numSources: int): (SearchReply, UsageFile)
  {
    if CheckAuthentication(token, secret, "/search") == Unauthorized then (Unauthenticated, file)
    else
      var (d, next) := Gate(file, fp, limit, writeOk);
      if d.Limited? then (TooManyRequests(d.error, d.currentUsage, d.limit), next)
      else if !Filled(query) then (EmptyQuery, next)
      else if found == [] then (NoResults, next)
      else (Ranked(Select(found, parseHost, numSources)), next)
  }

  /** The limiter runs before the query is looked at: an empty query from a
      signed-in client under its limit is refused with 400 but still counted. */
  lemma EmptyQueryStillCounts(token: Option<string>, secret: string, file: UsageFile, fp: string, limit: int,
                              query: Option<string>, found: seq<SearchItem>,
                              parseHost: string -> Option<string>, numSources: int)
    requires token == Some(secret) && secret != []
    requires StoredCount(file, fp) < limit && !Filled(query)
    ensures var (reply, after) := SearchRoute(token, secret, file, fp, limit, true, query, found, parseHost, numSources);
      reply == EmptyQuery && StoredCount(after, fp) == StoredCount(file, fp) + 1
  {
  }

  /** Requests without the session cookie never reach the limiter, and a
      refused request leaves every count as it was. */
  lemma RefusalsCountNothing(token: Option<string>, secret: string, file: UsageFile, fp: string, limit: int,
                             writeOk: bool, query: Option<string>, found: seq<SearchItem>,
                             parseHost: string -> Option<string>, numSources: int)
    ensures var (reply, after) := SearchRoute(token, secret, file, fp, limit, writeOk, query, found, parseHost, numSources);
      && (reply == Unauthenticated <==> !HasSession(token, secret))
      && (reply.Unauthenticated? || reply.TooManyRequests? ==> after == file)
      && (reply.TooManyRequests? ==> reply.currentUsage == StoredCount(file, fp) >= limit)
  {
  }

  /** The handler, with the day's usage file as the store's state. */
  method Search(token: Option<string>, secret: string, store: UsageStore, fp: string, writeOk: bool,
                query: Option<string>, found: seq<SearchItem>, parseHost: string -> Option<string>, numSources: int)
    returns (reply: SearchReply)
    modifies store
    ensures old(store.Valid()) ==> store.Valid()
    ensures (reply, store.file) == SearchRoute(token, secret, old(store.file), fp, store.limit, writeOk, query,
                                               found, parseHost, numSources)
  {
    if CheckAuthentication(token, secret, "/search") == Unauthorized {
      return Unauthenticated;
    }
    var d := store.RateLimitMiddleware(fp, writeOk);
    if d.Limited? {
      return TooManyRequests(d.error, d.currentUsage, d.limit);
    }
    if !Filled(query) {
      return EmptyQuery;
    }
    if found == [] {
      return NoResults;
    }
    reply := Ranked(Select(found, parseHost, numSources));
  }

  // ---------------------------------------------------------------------------
  // The result id
  // ---------------------------------------------------------------------------

  predicate IsHexDigit(c: char) {
    '0' <= c <= '9' || 'a' <= c <= 'f' || 'A' <= c <= 'F'
  }

  predicate AllHex(s: string) {
    forall i :: 0 <= i < |s| ==> IsHexDigit(s[i])
  }

  /** The textual layout of a UUID (RFC 4122, section 3): 36 characters,
      hyphens at positions 8, 13, 18 and 23 and hexadecimal digits elsewhere. */
  predicate IsUuid(s: string) {
    |s| == 36 && forall i :: 0 <= i < 36 ==>
      if i == 8 || i == 13 || i == 18 || i == 23 then s[i] == '-' else IsHexDigit(s[i])
  }

  /** Whether `s` matches `^H{g0}-H{g1}-...-H{gn}$`, H a hexadecimal digit. */
  predicate MatchesGroups(s: string, groups: seq<nat>)
    decreases |groups|
  {
    if groups == [] then s == []
    else if |groups| == 1 then |s| == groups[0] && AllHex(s)
    else |s| > groups[0] && AllHex(s[..groups[0]]) && s[groups[0]] == '-'
         && MatchesGroups(s[groups[0] + 1..], groups[1..])
  }

  /** The id pattern of `/research/:id`. */
  const IdGroups: seq<nat> := [8, 4, 4, 4, 12]

  lemma HexRange(s: string, lo: nat, hi: nat)
    requires lo <= hi <= |s|
    ensures AllHex(s[lo..hi]) <==> forall i :: lo <= i < hi ==> IsHexDigit(s[i])
  {
    assert forall i :: lo <= i < hi ==> s[lo..hi][i - lo] == s[i];
  }

  /** The length a match of `groups` has: the digits and the hyphens. */
  function Width(groups: seq<nat>): nat
    decreases |groups|
  {
    if groups == [] then 0 else if |groups| == 1 then groups[0] else groups[0] + 1 + Width(groups[1..])
  }

  lemma {:induction false} MatchesLength(s: string, groups: seq<nat>)
    requires groups != [] && MatchesGroups(s, groups)
    ensures |s| == Width(groups)
    decreases |groups|
  {
    if |groups| > 1 {
      MatchesLength(s[groups[0] + 1..], groups[1..]);
    }
  }

  /** The pattern accepts exactly the UUID layout. */
  lemma IdPatternIsUuid(s: string)
    ensures MatchesGroups(s, IdGroups) <==> IsUuid(s)
  {
    assert IdGroups[1..] == [4, 4, 4, 12] && [4, 4, 4, 12][1..] == [4, 4, 12];
    assert [4, 4, 12][1..] == [4, 12] && [4, 12][1..] == [12];
    assert Width(IdGroups) == 36;
    if MatchesGroups(s, IdGroups) {
      MatchesLength(s, IdGroups);
    }
    if |s| == 36 {
      var t1 := s[9..];
      var t2 := s[14..];
      var t3 := s[19..];
      var t4 := s[24..];
      assert t1[5..] == t2 && t2[5..] == t3 && t3[5..] == t4;
      assert t1[..4] == s[9..13] && t2[..4] == s[14..18] && t3[..4] == s[19..23];
      assert t1[4] == s[13] && t2[4] == s[18] && t3[4] == s[23];
      HexRange(s, 0, 8);
      HexRange(s, 9, 13);
      HexRange(s, 14, 18);
      HexRange(s, 19, 23);
      HexRange(s, 24, 36);
      assert s[..8] == s[0..8] && t4 == s[24..36];
    }
  }

  // ---------------------------------------------------------------------------
  // GET /research/:id
  // ---------------------------------------------------------------------------

  /** `escapeHTML` as it is written: the pattern finds all five special
      characters, but four of the replacements are the characters themselves,
      so only `'` is changed, to `&#39;`. */
  function EscapeHtml(s: string): (r: string)
    ensures '\'' !in r
    ensures '\'' !in s ==> r == s
  {
    if s == [] then ""
    else (if s[0] == '\'' then "&#39;" else [s[0]]) + EscapeHtml(s[1..])
  }

  /** The escaping works character by character. */
  lemma {:induction false} EscapeHtmlAppend(a: string, b: string)
    ensures EscapeHtml(a + b) == EscapeHtml(a) + EscapeHtml(b)
    decreases |a|
  {
    if a == [] {
      assert a + b == b;
    } else {
      assert (a + b)[0] == a[0] && (a + b)[1..] == a[1..] + b;
      EscapeHtmlAppend(a[1..], b);
    }
  }

  /** Markup passes through unescaped. */
  lemma MarkupPassesThrough()
    ensures EscapeHtml("<") == "<" && EscapeHtml(">") == ">" && EscapeHtml("&") == "&" && EscapeHtml("\"") == "\""
    ensures EscapeHtml("'") == "&#39;"
  {
  }

  /** `source.link ? escapeHTML(source.link) : '#'`. */
  function SourceHref(src: SearchItem): (href: string)
    ensures href != []
  {
    if Filled(src.link) then
      assert |EscapeHtml(src.link.value)| >= 1 by {
        EscapeHtmlAppend([src.link.value[0]], src.link.value[1..]);
        assert [src.link.value[0]] + src.link.value[1..] == src.link.value;
      }
      EscapeHtml(src.link.value)
    else "#"
  }

  /** `source.title ? escapeHTML(source.title) : link`. */
  function SourceText(src: SearchItem): string {
    if Filled(src.title) then EscapeHtml(src.title.value) else SourceHref(src)
  }

  function SourceId(index: nat): string {
    "source-" + NatToString(index + 1)
  }

  /** Different positions get different ids. */
  lemma SourceIdsDistinct(i: nat, j: nat)
    requires SourceId(i) == SourceId(j)
    ensures i == j
  {
    assert SourceId(i)[7..] == NatToString(i + 1);
    assert SourceId(j)[7..] == NatToString(j + 1);
    NatToStringInjective(i + 1, j + 1);
  }

  function SourceEntry(index: nat, src: SearchItem): string {
    "<li id=\"" + SourceId(index) + "\"><a href=\"" + SourceHref(src) + "\" target=\"_blank\">" + SourceText(src) + "</a></li>"
  }

  /** The entries of `sources`, the first one numbered from `first`. */
  function SourceEntries(sources: seq<SearchItem>, first: nat): string
    decreases |sources|
  {
    if sources == [] then "" else SourceEntry(first, sources[0]) + SourceEntries(sources[1..], first + 1)
  }

  /** One more source adds its entry, numbered after the others, at the end. */
  lemma {:induction false} SourceEntriesAppend(sources: seq<SearchItem>, src: SearchItem, first: nat)
    ensures SourceEntries(sources + [src], first) == SourceEntries(sources, first) + SourceEntry(first + |sources|, src)
    decreases |sources|
  {
    if sources == [] {
      assert [src][1..] == [];
    } else {
      assert (sources + [src])[1..] == sources[1..] + [src];
      SourceEntriesAppend(sources[1..], src, first + 1);
    }
  }

  /** The `forEach` that builds `sourceListItems`. */
  method RenderSourceList(sources: seq<SearchItem>) returns (sourceListItems: string)
    ensures sourceListItems == SourceEntries(sources, 0)
  {
    sourceListItems := "";
    for index := 0 to |sources|
      invariant sourceListItems == SourceEntries(sources[..index], 0)
    {
      SourceEntriesAppend(sources[..index], sources[index], 0);
      assert sources[..index + 1] == sources[..index] + [sources[index]];
      sourceListItems := sourceListItems + SourceEntry(index, sources[index]);
    }
    assert sources[..|sources|] == sources;
  }

  const NoSourcesRecorded := "<p style=\"margin-top: 20px; color: #aaa;\">No sources were recorded for this result.</p>"

  /** The `<details>` block of the result page around the list entries. */
  function SourcesDetails(count: nat, sourceListItems: string): string {
    "\n                <details style=\"margin-top: 20px;\">\n"
      + "                    <summary style=\"cursor: pointer; font-weight: bold; color: #ccc;\">Show sources used ("
      + NatToString(count) + ")</summary>\n"
      + "                    <ul style=\"margin-top: 10px;\">" + sourceListItems + "</ul>\n"
      + "                </details>\n            "
  }

  /** `sourcesToggleHtml`. */
  function SourcesToggle(sources: seq<SearchItem>): string {
    if |sources| > 0 then SourcesDetails(|sources|, SourceEntries(sources, 0)) else NoSourcesRecorded
  }

  /** The answers of `/research/:id`: 400 for an id that is not a UUID, 404
      for an unknown one, and the page, of which the escaped query, the stored
      answer and the sources section are modelled. */
  datatype PageReply =
    | InvalidId
    | NotFound
    | ResultPage(query: string, answerHtml: string, sourcesHtml: string)

  function ResearchPage(id: string, results: map<string, SavedResult>): (reply: PageReply)
    ensures reply.InvalidId? <==> !IsUuid(id)
    ensures reply.NotFound? <==> IsUuid(id) && id !in results
    ensures reply.ResultPage? <==> IsUuid(id) && id in results
  {
    IdPatternIsUuid(id);
    if !MatchesGroups(id, IdGroups) then InvalidId
    else if id !in results then NotFound
    else
      var r := results[id];
      ResultPage(EscapeHtml(r.query), r.answerHtml, SourcesToggle(r.sources))
  }

  /** Serving a page: the sources section is built by the loop. */
  method ServeResearchPage(id: string, store: ResultStore) returns (reply: PageReply)
    ensures reply == ResearchPage(id, store.results)
  {
    IdPatternIsUuid(id);
    if !MatchesGroups(id, IdGroups) {
      return InvalidId;
    }
    if id !in store.results {
      return NotFound;
    }
    var result := store.results[id];
    var sourcesToggleHtml := NoSourcesRecorded;
    if |result.sources| > 0 {
      var sourceListItems := RenderSourceList(result.sources);
      sourcesToggleHtml := SourcesDetails(|result.sources|, sourceListItems);
    }
    reply := ResultPage(EscapeHtml(result.query), result.answerHtml, sourcesToggleHtml);
  }
}

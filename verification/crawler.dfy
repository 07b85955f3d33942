/** `searchWeb` (src/crawler.js): the search results for a query, fetched from
    the Custom Search API ten at a time. The pages needed for the configured
    total are requested together; a page whose request fails, or whose answer
    has no items, contributes nothing, and the items of the others are
    concatenated in page order and cut to the total. What the API answers to
    each request is an input, `fetch`. */
module Crawler {
  import opened Wrappers
  import opened Text
  import opened Seqs
  import opened Scoring
  import opened Config

  const ResultsPerPage := 10
  const SourcesDefault := 20

  /** The parameters of one API request. */
  datatype PageRequest = PageRequest(key: string, cx: string, q: string, num: nat, start: nat)

  /** How a request settled: failed (the `.catch` marker, or a rejection), or
      answered with `data.items` (`None` when the answer has no items). */
  datatype PageOutcome = PageFailed(reason: string) | PageAnswered(items: Option<seq<SearchItem>>)

  /** The environment `searchWeb` reads. */
  datatype SearchEnv = SearchEnv(apiKey: Option<string>, cx: Option<string>, numSources: Option<string>)

  /** `Math.ceil(total / 10)` as the number of iterations of the request
      loop: no page at all when the total is not positive. */
  function NumPages(total: int): (n: nat)
    ensures total <= 0 ==> n == 0
    ensures total > 0 ==> (n - 1) * ResultsPerPage < total <= n * ResultsPerPage
  {
    if total <= 0 then 0 else (total + ResultsPerPage - 1) / ResultsPerPage
  }

  /** The request of page `i` (counting from 0). */
  function PageAt(key: string, cx: string, q: string, i: nat): PageRequest {
    PageRequest(key, cx, q, ResultsPerPage, i * ResultsPerPage + 1)
  }

  function PagePlan(key: string, cx: string, q: string, total: int): (reqs: seq<PageRequest>)
    ensures |reqs| == NumPages(total)
    ensures forall i :: 0 <= i < |reqs| ==> reqs[i] == PageAt(key, cx, q, i)
  {
    seq(NumPages(total), i requires 0 <= i => PageAt(key, cx, q, i))
  }

  /** The pages ask for consecutive, non-overlapping ranges of results that
      start at the first one and together cover the total, with less than one
      page to spare. */
  lemma PagesTileTotal(key: string, cx: string, q: string, total: int)
    requires total > 0
    ensures var reqs := PagePlan(key, cx, q, total);
      && reqs != [] && reqs[0].start == 1
      && (forall i :: 0 <= i < |reqs| - 1 ==> reqs[i + 1].start == reqs[i].start + reqs[i].num)
      && total <= reqs[|reqs| - 1].start + reqs[|reqs| - 1].num - 1 < total + ResultsPerPage
  {
  }

  /** What one settled page contributes. */
  function PageItems(o: PageOutcome): seq<SearchItem> {
    if o.PageAnswered? && o.items.Some? then o.items.value else []
  }

  /** `combinedItems` after the `forEach` over the settled pages. */
  function Combined(outcomes: seq<PageOutcome>): seq<SearchItem> {
    if outcomes == [] then [] else Combined(outcomes[..|outcomes| - 1]) + PageItems(outcomes[|outcomes| - 1])
  }

  lemma {:induction false} CombinedAppend(a: seq<PageOutcome>, b: seq<PageOutcome>)
    ensures Combined(a + b) == Combined(a) + Combined(b)
    decreases |b|
  {
    if b == [] {
      assert a + b == a;
    } else {
      var n := |b| - 1;
      assert (a + b)[..|a + b| - 1] == a + b[..n];
      assert (a + b)[|a + b| - 1] == b[n];
      CombinedAppend(a, b[..n]);
      AppendAssoc(Combined(a), Combined(b[..n]), PageItems(b[n]));
    }
  }

  /** Pages are merged in page order, and a page that failed or has no items
      is skipped without disturbing the others. */
  lemma FailedPageSkipped(a: seq<PageOutcome>, o: PageOutcome, b: seq<PageOutcome>)
    requires o.PageFailed? || o.items.None?
    ensures Combined(a + [o] + b) == Combined(a) + Combined(b)
  {
    CombinedAppend(a + [o], b);
    CombinedAppend(a, [o]);
    assert [o][..0] == [];
    assert Combined([o]) == [];
    assert Combined(a) + [] == Combined(a);
  }

  /** What `searchWeb` does: the requests it makes and the items it resolves
      to. */
  function SearchWebSpec(query: Option<string>, env: SearchEnv, fetch: PageRequest -> PageOutcome)
    : (r: (seq<PageRequest>, seq<SearchItem>))
    ensures !Filled(query) || !Filled(env.apiKey) || !Filled(env.cx) ==> r == ([], [])
  {
    if !Filled(query) then ([], [])
    else
      var total := IntSetting(env.numSources, SourcesDefault);
      if !Filled(env.apiKey) || !Filled(env.cx) then ([], [])
      else
        var reqs := PagePlan(env.apiKey.value, env.cx.value, query.value, total);
        var outcomes := seq(|reqs|, i requires 0 <= i < |reqs| => fetch(reqs[i]));
        (reqs, SliceTo(Combined(outcomes), total))
  }

  /** The items are the first ones of the successful pages' items in page
      order: all of them, up to the total. */
  lemma SearchWebPrefix(query: Option<string>, env: SearchEnv, fetch: PageRequest -> PageOutcome)
    ensures var (reqs, items) := SearchWebSpec(query, env, fetch);
      var total := IntSetting(env.numSources, SourcesDefault);
      var all := Combined(seq(|reqs|, i requires 0 <= i < |reqs| => fetch(reqs[i])));
      && items == all[..|items|]
      && |items| == (if total <= 0 then 0 else if total < |all| then total else |all|)
  {
    var (reqs, items) := SearchWebSpec(query, env, fetch);
    var total := IntSetting(env.numSources, SourcesDefault);
    if total <= 0 {
      assert reqs == [];
    }
  }

  /** `searchWeb`: the request loop, which issues every request, then the
      merge over the settled pages. */
  method SearchWeb(query: Option<string>, env: SearchEnv, fetch: PageRequest -> PageOutcome)
    returns (requests: seq<PageRequest>, items: seq<SearchItem>)
    ensures (requests, items) == SearchWebSpec(query, env, fetch)
  {
    if !Filled(query) {
      return [], [];
    }
    var total := IntSetting(env.numSources, SourcesDefault);
    if !Filled(env.apiKey) || !Filled(env.cx) {
      return [], [];
    }
    var numPages := NumPages(total);
    ghost var plan := PagePlan(env.apiKey.value, env.cx.value, query.value, total);
    requests := [];
    var results: seq<PageOutcome> := [];
    for i := 0 to numPages
      invariant requests == plan[..i]
      invariant |results| == i && forall k :: 0 <= k < i ==> results[k] == fetch(requests[k])
    {
      var request := PageAt(env.apiKey.value, env.cx.value, query.value, i);
      requests := requests + [request];
      results := results + [fetch(request)];
    }
    assert requests == plan;
    var combinedItems: seq<SearchItem> := [];
    for index := 0 to |results|
      invariant combinedItems == Combined(results[..index])
    {
      assert results[..index + 1][..index] == results[..index];
      var result := results[index];
      if result.PageAnswered? && result.items.Some? {
        combinedItems := combinedItems + result.items.value;
      }
    }
    assert results[..|results|] == results;
    assert results == seq(|requests|, i requires 0 <= i < |requests| => fetch(requests[i]));
    items := SliceTo(combinedItems, total);
  }
}

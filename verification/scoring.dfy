/** Source scoring and top-N selection of the `/search` route (server.js:358-391):
    every search hit gets an integer score from its hostname and from the
    keywords found in its title, snippet and URL; the hits are stable-sorted by
    score, highest first, the first N are kept, and their present links become
    the list of URLs to extract. */
module Scoring {
  import opened Wrappers
  import opened Text
  import opened Seqs

  /** One hit of the search API; fields the API omitted are `None`. */
  datatype SearchItem = SearchItem(link: Option<string>, title: Option<string>, snippet: Option<string>)

  /** A hit with the `score` the route attaches to it. */
  datatype Hit = Hit(item: SearchItem, score: int)

  const PreferredDomains: seq<string> :=
    [".edu", ".gov", "wikipedia.org", "scholar.google.com", "bbc.", "reuters.", "nytimes.", "arxiv.org"]
  const LessPreferredDomains: seq<string> :=
    ["amazon.", "walmart.", "bestbuy.", "ebay.", "target.", "shopping.", ".shop", ".store"]
  const RelevantKeywords: seq<string> :=
    ["research", "study", "abstract", "thesis", "paper", "journal", "news", "report",
     "article", "analysis", "findings", "university", "institute"]

  /** `x || ''` for an optional string. */
  function OrEmpty(x: Option<string>): string {
    if x.Some? then x.value else ""
  }

  /** `domains.some(d => host.includes(d))`. */
  predicate AnyIn(host: string, domains: seq<string>) {
    exists i :: 0 <= i < |domains| && Contains(host, domains[i])
  }

  /** How many entries of `kws` occur in `text`: each keyword adds one point
      however often it occurs. */
  function KeywordCount(text: string, kws: seq<string>): (n: nat)
    ensures n <= |kws|
  {
    if kws == [] then 0
    else KeywordCount(text, kws[..|kws| - 1]) + (if Contains(text, kws[|kws| - 1]) then 1 else 0)
  }

  predicate Distinct<T(==)>(s: seq<T>) {
    forall i, j :: 0 <= i < j < |s| ==> s[i] != s[j]
  }

  /** With distinct keywords the count is the number of different keywords
      found in the text, not the number of occurrences. */
  lemma {:induction false} KeywordCountIsMatchedSet(text: string, kws: seq<string>)
    requires Distinct(kws)
    ensures KeywordCount(text, kws) == |Matched(text, kws)|
  {
    if kws != [] {
      var init, last := kws[..|kws| - 1], kws[|kws| - 1];
      KeywordCountIsMatchedSet(text, init);
      MatchedSnoc(text, init, last);
      assert kws == init + [last];
      assert last !in Matched(text, init);
    }
  }

  /** The keywords of `kws` that occur in `text`. */
  function Matched(text: string, kws: seq<string>): set<string> {
    set k | k in kws && Contains(text, k)
  }

  lemma MatchedSnoc(text: string, init: seq<string>, last: string)
    ensures Matched(text, init + [last])
         == Matched(text, init) + (if Contains(text, last) then {last} else {})
  {
    assert forall k :: k in init + [last] <==> k in init || k == last;
  }

  lemma RelevantKeywordsDistinct()
    ensures Distinct(RelevantKeywords)
  {
  }

  /** The text the keywords are looked for in: lower-cased title and snippet,
      and the URL as it is. */
  function TextToCheck(item: SearchItem): string {
    ToLower(OrEmpty(item.title)) + " " + ToLower(OrEmpty(item.snippet)) + " " + OrEmpty(item.link)
  }

  /** The score of a hit, given what `new URL(link).hostname` gave for its link
      (`None` when the constructor threw). */
  function Score(item: SearchItem, hostname: Option<string>): int {
    if hostname.None? then -10
    else
      var domain := ToLower(hostname.value);
      (if AnyIn(domain, PreferredDomains) then 5 else 0)
      + (if AnyIn(domain, LessPreferredDomains) then -5 else 0)
      + KeywordCount(TextToCheck(item), RelevantKeywords)
  }

  /** A hit whose URL parses scores between -5 and 18; one whose URL does not
      parse scores exactly -10. */
  lemma ScoreRange(item: SearchItem, hostname: Option<string>)
    ensures hostname.None? ==> Score(item, hostname) == -10
    ensures hostname.Some? ==> -5 <= Score(item, hostname) <= 5 + |RelevantKeywords| == 18
  {
  }

  /** Exactly the three contributions: +5 for a preferred domain, -5 for a
      less-preferred one, +1 per distinct keyword present. */
  lemma ScoreParts(item: SearchItem, host: string)
    ensures Score(item, Some(host)) ==
      (if AnyIn(ToLower(host), PreferredDomains) then 5 else 0)
      + (if AnyIn(ToLower(host), LessPreferredDomains) then -5 else 0)
      + |Matched(TextToCheck(item), RelevantKeywords)|
  {
    RelevantKeywordsDistinct();
    KeywordCountIsMatchedSet(TextToCheck(item), RelevantKeywords);
  }

  /** The scoring callback: the domain tests, then the `forEach` over the
      keywords adding one point per keyword found. */
  method ScoreItem(item: SearchItem, hostname: Option<string>) returns (score: int)
    ensures score == Score(item, hostname)
  {
    score := 0;
    if hostname.None? {
      score := -10;
      return;
    }
    var domain := ToLower(hostname.value);
    var text := TextToCheck(item);
    if AnyIn(domain, PreferredDomains) {
      score := score + 5;
    }
    if AnyIn(domain, LessPreferredDomains) {
      score := score - 5;
    }
    var base := score;
    var i := 0;
    while i < |RelevantKeywords|
      invariant 0 <= i <= |RelevantKeywords|
      invariant score == base + KeywordCount(text, RelevantKeywords[..i])
    {
      assert RelevantKeywords[..i + 1][..i] == RelevantKeywords[..i];
      if Contains(text, RelevantKeywords[i]) {
        score := score + 1;
      }
      i := i + 1;
    }
    assert RelevantKeywords[..i] == RelevantKeywords;
  }

  /** `new URL(url).hostname`, `None` when the constructor throws. Parsing a
      non-empty URL is an input (`parseHost`); the empty string, which a hit
      without a link is checked as, is never a valid URL. */
  function Hostname(url: string, parseHost: string -> Option<string>): (h: Option<string>)
    ensures url == [] ==> h.None?
    ensures url != [] ==> h == parseHost(url)
  {
    if url == [] then None else parseHost(url)
  }

  /** The hits with their scores, in search order. */
  function ScoreAll(items: seq<SearchItem>, parseHost: string -> Option<string>): (hits: seq<Hit>)
    ensures |hits| == |items|
    ensures forall i :: 0 <= i < |items| ==>
      hits[i] == Hit(items[i], Score(items[i], Hostname(OrEmpty(items[i].link), parseHost)))
  {
    seq(|items|, i requires 0 <= i < |items| => Hit(items[i], Score(items[i], Hostname(OrEmpty(items[i].link), parseHost))))
  }

  /** A hit without a link, or with an empty one, scores exactly -10,
      whatever the URL parser does. */
  lemma MissingLinkScoresLowest(items: seq<SearchItem>, parseHost: string -> Option<string>, i: nat)
    requires i < |items| && !Filled(items[i].link)
    ensures ScoreAll(items, parseHost)[i].score == -10
  {
  }

  function HitScore(h: Hit): int { h.score }

  /** `topItems.map(item => item.link).filter(link => !!link)`. */
  function PresentLinks(top: seq<Hit>): (urls: seq<string>)
    ensures |urls| <= |top|
    ensures forall k :: 0 <= k < |urls| ==> urls[k] != []
    ensures forall u :: u in urls <==> u != [] && exists i :: 0 <= i < |top| && top[i].item.link == Some(u)
  {
    if top == [] then []
    else
      var rest := PresentLinks(top[1..]);
      assert forall i :: 0 < i < |top| ==> top[i] == top[1..][i - 1];
      if top[0].item.link.Some? && top[0].item.link.value != [] then [top[0].item.link.value] + rest else rest
  }

  /** One hit gives its link when it has a non-empty one, and nothing otherwise. */
  lemma PresentLinksOne(h: Hit)
    ensures PresentLinks([h]) == if h.item.link.Some? && h.item.link.value != [] then [h.item.link.value] else []
  {
    assert [h][1..] == [];
  }

  /** The filter keeps the hits' order and their repeats: the links of two runs
      of hits are the links of the first run followed by those of the second. */
  lemma {:induction false} PresentLinksAppend(a: seq<Hit>, b: seq<Hit>)
    ensures PresentLinks(a + b) == PresentLinks(a) + PresentLinks(b)
    decreases |a|
  {
    if a == [] {
      assert a + b == b;
    } else {
      assert (a + b)[0] == a[0];
      assert (a + b)[1..] == a[1..] + b;
      PresentLinksAppend(a[1..], b);
    }
  }

  datatype Selection = Selection(topItems: seq<Hit>, urlsToProcess: seq<string>)

  /** Scoring, the descending sort and `slice(0, limit)`. */
  function Select(items: seq<SearchItem>, parseHost: string -> Option<string>, limit: int): Selection {
    var ranked := SortDesc(ScoreAll(items, parseHost), HitScore);
    var top := SliceTo(ranked, limit);
    Selection(top, PresentLinks(top))
  }

  /** The selected hits are the first min(limit, n) of all n scored hits sorted
      by score, highest first; the sort only reorders them and keeps equal
      scores in search order. */
  lemma {:induction false} SelectTop(items: seq<SearchItem>, parseHost: string -> Option<string>, limit: nat)
    ensures var sel := Select(items, parseHost, limit);
      var ranked := SortDesc(ScoreAll(items, parseHost), HitScore);
      && |sel.topItems| == (if limit < |items| then limit else |items|)
      && sel.topItems == ranked[..|sel.topItems|]
      && NonIncreasing(sel.topItems, HitScore)
      && multiset(ranked) == multiset(ScoreAll(items, parseHost))
      && (forall v :: WithKey(ranked, HitScore, v) == WithKey(ScoreAll(items, parseHost), HitScore, v))
  {
    var scored := ScoreAll(items, parseHost);
    SortDescSorted(scored, HitScore);
    forall v ensures WithKey(SortDesc(scored, HitScore), HitScore, v) == WithKey(scored, HitScore, v) {
      SortDescStable(scored, HitScore, v);
    }
  }

  /** Every selected hit scores at least as much as every hit that was left out. */
  lemma {:induction false} SelectKeepsBest(items: seq<SearchItem>, parseHost: string -> Option<string>, limit: nat, i: nat, j: nat)
    requires var ranked := SortDesc(ScoreAll(items, parseHost), HitScore);
      i < |Select(items, parseHost, limit).topItems| <= j < |ranked|
    ensures var ranked := SortDesc(ScoreAll(items, parseHost), HitScore);
      Select(items, parseHost, limit).topItems[i].score >= ranked[j].score
  {
    SortDescSorted(ScoreAll(items, parseHost), HitScore);
  }
}

/** The `/process-and-summarize` route (server.js:548-643): the request is
    checked, every URL's extraction is awaited, the texts that were extracted
    are merged in URL order together with the search items they came from, and
    the answer is streamed by `processLlmStreamWithRetry` with the model the
    browser chose. The extraction outcomes, the model list, the API key and the
    fresh result id are inputs; so is each attempt of the provider stream. */
module Pipeline {
  import opened Wrappers
  import opened Text
  import opened Json
  import opened Sse
  import opened Scoring
  import opened Config
  import opened Upstream
  import opened Orchestrator
  import Llm

  // ---------------------------------------------------------------------------
  // The extraction merge
  // ---------------------------------------------------------------------------

  /** How the promise of one `extractContent(url)` settled: with the extracted
      text or `null`, or rejected. */
  datatype Settled = Extracted(value: Option<string>) | Threw

  /** Only a fulfilled, non-null outcome counts; an empty text does. */
  predicate Survives(o: Settled) {
    o.Extracted? && o.value.Some?
  }

  function Kept(o: Settled): (texts: seq<string>)
    ensures Survives(o) ==> texts == [o.value.value]
    ensures !Survives(o) ==> texts == []
  {
    if Survives(o) then [o.value.value] else []
  }

  /** `topItems.find(item => item.link === url)`. */
  function FindByLink(items: seq<SearchItem>, url: string): (r: Option<SearchItem>)
    ensures r.Some? ==> r.value.link == Some(url) && exists i :: (0 <= i < |items| && items[i] == r.value
                                                                 && forall j :: 0 <= j < i ==> items[j].link != Some(url))
    ensures r.None? <==> forall i :: 0 <= i < |items| ==> items[i].link != Some(url)
  {
    if items == [] then None
    else if items[0].link == Some(url) then Some(items[0])
    else
      var r := FindByLink(items[1..], url);
      assert forall i :: 0 < i < |items| ==> items[i] == items[1..][i - 1];
      if r.Some? then
        var i :| 0 <= i < |items[1..]| && items[1..][i] == r.value && forall j :: 0 <= j < i ==> items[1..][j].link != Some(url);
        assert items[i + 1] == r.value;
        r
      else r
  }

  /** The search item one outcome contributes: the one whose link is the URL,
      when the extraction survived and there is such an item. */
  function MatchedItem(url: string, o: Settled, topItems: seq<SearchItem>): (items: seq<SearchItem>)
    ensures |items| <= 1
    ensures !Survives(o) ==> items == []
    ensures items != [] ==> items[0].link == Some(url) && items[0] in topItems
    ensures Survives(o) && FindByLink(topItems, url).Some? ==> items == [FindByLink(topItems, url).value]
    ensures Survives(o) && FindByLink(topItems, url).None? ==> items == []
  {
    if Survives(o) then
      var found := FindByLink(topItems, url);
      if found.Some? then [found.value] else []
    else []
  }

  /** `successfulExtractions`: the surviving texts, in URL order. */
  function SurvivingTexts(outcomes: seq<Settled>): (texts: seq<string>)
    ensures |texts| <= |outcomes|
  {
    if outcomes == [] then []
    else SurvivingTexts(outcomes[..|outcomes| - 1]) + Kept(outcomes[|outcomes| - 1])
  }

  /** `successfulSourceItems`: the search items of the surviving URLs, in URL
      order. */
  function SurvivingItems(urls: seq<string>, outcomes: seq<Settled>, topItems: seq<SearchItem>): (items: seq<SearchItem>)
    requires |urls| == |outcomes|
    ensures |items| <= |outcomes|
  {
    if outcomes == [] then []
    else
      var n := |outcomes| - 1;
      SurvivingItems(urls[..n], outcomes[..n], topItems) + MatchedItem(urls[n], outcomes[n], topItems)
  }

  /** The merge is a fold in input order: the outcomes of the first URLs
      contribute first, each outcome on its own. */
  lemma {:induction false} SurvivingTextsAppend(a: seq<Settled>, b: seq<Settled>)
    ensures SurvivingTexts(a + b) == SurvivingTexts(a) + SurvivingTexts(b)
    decreases |b|
  {
    if b == [] {
      assert a + b == a;
    } else {
      var n := |b| - 1;
      assert (a + b)[..|a + b| - 1] == a + b[..n];
      assert (a + b)[|a + b| - 1] == b[n];
      SurvivingTextsAppend(a, b[..n]);
    }
  }

  /** The items are merged the same way: the URLs of the first outcomes
      contribute their items first, each URL on its own. */
  lemma {:induction false} SurvivingItemsAppend(ua: seq<string>, oa: seq<Settled>, ub: seq<string>, ob: seq<Settled>,
                                               topItems: seq<SearchItem>)
    requires |ua| == |oa| && |ub| == |ob|
    ensures SurvivingItems(ua + ub, oa + ob, topItems) == SurvivingItems(ua, oa, topItems) + SurvivingItems(ub, ob, topItems)
    decreases |ob|
  {
    if ob == [] {
      assert ua + ub == ua && oa + ob == oa;
    } else {
      var n := |ob| - 1;
      assert (oa + ob)[..|oa + ob| - 1] == oa + ob[..n];
      assert (ua + ub)[..|ua + ub| - 1] == ua + ub[..n];
      assert (oa + ob)[|oa + ob| - 1] == ob[n];
      assert (ua + ub)[|ua + ub| - 1] == ub[n];
      SurvivingItemsAppend(ua, oa, ub[..n], ob[..n], topItems);
    }
  }

  /** One URL contributes the item `topItems.find` gives for it, when its
      extraction survived. */
  lemma SurvivingItemsOne(url: string, o: Settled, topItems: seq<SearchItem>)
    ensures SurvivingItems([url], [o], topItems) == MatchedItem(url, o, topItems)
  {
    assert [o][..0] == [] && [url][..0] == [];
  }

  lemma SurvivingTextsOne(o: Settled)
    ensures SurvivingTexts([o]) == Kept(o)
  {
    assert [o][..0] == [];
  }

  /** No text survives exactly when no extraction was fulfilled with a value. */
  lemma {:induction false} NoSurvivors(outcomes: seq<Settled>)
    ensures SurvivingTexts(outcomes) == [] <==> forall i :: 0 <= i < |outcomes| ==> !Survives(outcomes[i])
  {
    if outcomes != [] {
      var n := |outcomes| - 1;
      NoSurvivors(outcomes[..n]);
      assert forall i :: 0 <= i < n ==> outcomes[..n][i] == outcomes[i];
    }
  }

  /** Every matched item is one of `topItems` whose link is a surviving URL;
      there are at most as many items as texts, and exactly as many when
      every surviving URL has its item. */
  lemma {:induction false} SurvivingItemsMatch(urls: seq<string>, outcomes: seq<Settled>, topItems: seq<SearchItem>)
    requires |urls| == |outcomes|
    ensures var items := SurvivingItems(urls, outcomes, topItems);
      && |items| <= |SurvivingTexts(outcomes)|
      && (forall k :: 0 <= k < |items| ==>
            (items[k] in topItems && exists i :: 0 <= i < |urls| && Survives(outcomes[i]) && items[k].link == Some(urls[i])))
      && ((forall i :: 0 <= i < |urls| && Survives(outcomes[i]) ==> FindByLink(topItems, urls[i]).Some?)
            ==> |items| == |SurvivingTexts(outcomes)|)
  {
    if outcomes != [] {
      var n := |outcomes| - 1;
      SurvivingItemsMatch(urls[..n], outcomes[..n], topItems);
      var before := SurvivingItems(urls[..n], outcomes[..n], topItems);
      var last := MatchedItem(urls[n], outcomes[n], topItems);
      var items := before + last;
      forall k | 0 <= k < |items|
        ensures items[k] in topItems
        ensures exists i :: 0 <= i < |urls| && Survives(outcomes[i]) && items[k].link == Some(urls[i])
      {
        if k < |before| {
          var i :| 0 <= i < n && Survives(outcomes[..n][i]) && before[k].link == Some(urls[..n][i]);
          assert outcomes[..n][i] == outcomes[i] && urls[..n][i] == urls[i];
        } else {
          assert items[k] == last[0];
        }
      }
      if forall i :: 0 <= i < |urls| && Survives(outcomes[i]) ==> FindByLink(topItems, urls[i]).Some? {
        assert forall i :: 0 <= i < n ==> outcomes[..n][i] == outcomes[i] && urls[..n][i] == urls[i];
      }
    }
  }

  /** The `forEach` over the settled outcomes. */
  method MergeExtractions(urls: seq<string>, outcomes: seq<Settled>, topItems: seq<SearchItem>)
    returns (texts: seq<string>, items: seq<SearchItem>)
    requires |urls| == |outcomes|
    ensures texts == SurvivingTexts(outcomes)
    ensures items == SurvivingItems(urls, outcomes, topItems)
  {
    texts, items := [], [];
    for i := 0 to |urls|
      invariant texts == SurvivingTexts(outcomes[..i])
      invariant items == SurvivingItems(urls[..i], outcomes[..i], topItems)
    {
      assert outcomes[..i + 1][..i] == outcomes[..i] && urls[..i + 1][..i] == urls[..i];
      var url := urls[i];
      var result := outcomes[i];
      if result.Extracted? && result.value.Some? {
        texts := texts + [result.value.value];
        var originalItem := FindByLink(topItems, url);
        if originalItem.Some? {
          items := items + [originalItem.value];
        }
      }
    }
    assert outcomes[..|outcomes|] == outcomes && urls[..|urls|] == urls;
  }

  // ---------------------------------------------------------------------------
  // The route
  // ---------------------------------------------------------------------------

  /** The request body; an array field is `None` when it is missing or not
      an array. */
  datatype SummarizeRequest = SummarizeRequest(query: Option<string>, urlsToProcess: Option<seq<string>>,
                                               topItems: Option<seq<SearchItem>>, selectedModel: Option<string>)

  predicate ValidRequest(req: SummarizeRequest) {
    Filled(req.query) && req.urlsToProcess.Some? && req.urlsToProcess.value != [] && req.topItems.Some?
  }

  /** What the route writes, unencoded, for a request that fails the check. */
  const InvalidRequestEvent := "event: error\ndata: {\"message\": \"Missing or invalid query, URLs, or source items to process.\"}\n\n"
  const NoExtraction := "Failed to extract content from any sources."
  const SourceSeparator := "\n\n---\n\n"
  /** The `TypeError` the engine throws when the handler assigns to its
      `const modelConfig`. */
  const ConstAssignment := "Assignment to constant variable."

  /** A search item as `JSON.stringify` writes it: absent fields are left out. */
  function ItemJson(item: SearchItem): Json {
    JObj((if item.link.Some? then [("link", JStr(item.link.value))] else [])
         + (if item.title.Some? then [("title", JStr(item.title.value))] else [])
         + (if item.snippet.Some? then [("snippet", JStr(item.snippet.value))] else []))
  }

  /** `{type: 'sources_processed', count, sources}` as an `info` frame. */
  function SourcesFrame(items: seq<SearchItem>): Frame {
    Frame("info", JObj([("type", JStr("sources_processed")), ("count", JInt(|items|)),
                        ("sources", JArr(seq(|items|, i requires 0 <= i < |items| => ItemJson(items[i]))))]))
  }

  function InvalidModelFrame(modelToUse: Option<string>): Frame {
    Frame("info", JObj([("message", JStr("Invalid model selected: " + Llm.Interpolated(modelToUse) + ". Using default model."))]))
  }

  /** `selectedModel || DEFAULT_MODEL`. */
  function ModelToUse(selected: Option<string>, defaultModel: Option<string>): Option<string> {
    if Filled(selected) then selected else defaultModel
  }

  /** What the route does: nothing but the refusal for a request that fails
      the check; otherwise the acts on the event stream, the record saved, the
      job the stream was opened with (`None` when no provider call was made)
      and the number of attempts. */
  datatype Handling =
    | Refused
    | Handled(acts: seq<Act>, saved: Option<SavedResult>, call: Option<Job>, attemptsMade: nat)

  function SummarizeRoute(req: SummarizeRequest, outcomes: seq<Settled>, models: seq<ModelConfig>,
                          defaultModel: Option<string>, apiKey: Option<string>, resultId: string,
                          attempts: seq<Attempt>, step: (string, Progress) -> Scanned<string, Progress>): Handling
    requires ValidRequest(req) ==> |outcomes| == |req.urlsToProcess.value|
    requires |attempts| == MaxAttempts
  {
    if !ValidRequest(req) then Refused
    else
      var texts := SurvivingTexts(outcomes);
      var items := SurvivingItems(req.urlsToProcess.value, outcomes, req.topItems.value);
      if texts == [] then Handled([Send(ErrorFrame(NoExtraction)), Close], None, None, 0)
      else
        var info := Send(SourcesFrame(items));
        var modelToUse := ModelToUse(req.selectedModel, defaultModel);
        var config := FindModel(models, modelToUse);
        if config.None? then
          Handled([info, Send(InvalidModelFrame(modelToUse)), Send(ErrorFrame(ConstAssignment)), Close], None, None, 0)
        else
          var job := Job(req.query.value, Join(texts, SourceSeparator), items, apiKey, config.value, resultId);
          var r := Retry(job, attempts, 1, step, Opener(job));
          Handled([info] + r.acts, r.saved, Some(job), r.attemptsMade)
  }

  /** With no surviving extraction the browser gets one error frame, the
      response is ended, and the provider is never called. */
  lemma NoSurvivorsNoCall(req: SummarizeRequest, outcomes: seq<Settled>, models: seq<ModelConfig>,
                          defaultModel: Option<string>, apiKey: Option<string>, resultId: string,
                          attempts: seq<Attempt>, step: (string, Progress) -> Scanned<string, Progress>)
    requires ValidRequest(req) && |outcomes| == |req.urlsToProcess.value| && |attempts| == MaxAttempts
    requires forall i :: 0 <= i < |outcomes| ==> !Survives(outcomes[i])
    ensures SummarizeRoute(req, outcomes, models, defaultModel, apiKey, resultId, attempts, step)
         == Handled([Send(ErrorFrame(NoExtraction)), Close], None, None, 0)
  {
    NoSurvivors(outcomes);
  }

  /** When some extraction survived and the chosen model is configured, the
      provider is called once per attempt, at most three times, with the
      surviving texts joined by the separator, the matched items and that
      model; the browser has first been told how many sources were
      processed. */
  lemma CallCarriesSurvivors(req: SummarizeRequest, outcomes: seq<Settled>, models: seq<ModelConfig>,
                             defaultModel: Option<string>, apiKey: Option<string>, resultId: string,
                             attempts: seq<Attempt>, step: (string, Progress) -> Scanned<string, Progress>)
    requires ValidRequest(req) && |outcomes| == |req.urlsToProcess.value| && |attempts| == MaxAttempts
    requires exists i :: 0 <= i < |outcomes| && Survives(outcomes[i])
    requires FindModel(models, ModelToUse(req.selectedModel, defaultModel)).Some?
    ensures var h := SummarizeRoute(req, outcomes, models, defaultModel, apiKey, resultId, attempts, step);
      var items := SurvivingItems(req.urlsToProcess.value, outcomes, req.topItems.value);
      && h.Handled? && h.call.Some?
      && h.call.value.combinedText == Join(SurvivingTexts(outcomes), SourceSeparator)
      && h.call.value.sources == items
      && h.call.value.model.id == ModelToUse(req.selectedModel, defaultModel)
      && h.call.value.model in models
      && h.acts[0] == Send(SourcesFrame(items))
      && 1 <= h.attemptsMade <= MaxAttempts
  {
    NoSurvivors(outcomes);
    var config := FindModel(models, ModelToUse(req.selectedModel, defaultModel));
    var items := SurvivingItems(req.urlsToProcess.value, outcomes, req.topItems.value);
    var job := Job(req.query.value, Join(SurvivingTexts(outcomes), SourceSeparator), items, apiKey, config.value, resultId);
    RouteCalls(req, outcomes, models, defaultModel, apiKey, resultId, attempts, step);
    RetryBounds(job, attempts, step);
  }

  /** Otherwise the provider is not called at all. */
  lemma ProviderNotCalled(req: SummarizeRequest, outcomes: seq<Settled>, models: seq<ModelConfig>,
                          defaultModel: Option<string>, apiKey: Option<string>, resultId: string,
                          attempts: seq<Attempt>, step: (string, Progress) -> Scanned<string, Progress>)
    requires ValidRequest(req) ==> |outcomes| == |req.urlsToProcess.value|
    requires |attempts| == MaxAttempts
    requires || !ValidRequest(req)
             || (forall i :: 0 <= i < |outcomes| ==> !Survives(outcomes[i]))
             || FindModel(models, ModelToUse(req.selectedModel, defaultModel)).None?
    ensures var h := SummarizeRoute(req, outcomes, models, defaultModel, apiKey, resultId, attempts, step);
      h.Handled? ==> h.call.None?
  {
    if ValidRequest(req) {
      NoSurvivors(outcomes);
    }
  }

  lemma RetryBounds(job: Job, attempts: seq<Attempt>, step: (string, Progress) -> Scanned<string, Progress>)
    requires |attempts| == MaxAttempts
    ensures 1 <= Retry(job, attempts, 1, step, Opener(job)).attemptsMade <= MaxAttempts
  {
    RetryAttempts(job, attempts, 1, step, Opener(job));
  }

  /** The route when the provider is called. */
  lemma RouteCalls(req: SummarizeRequest, outcomes: seq<Settled>, models: seq<ModelConfig>,
                   defaultModel: Option<string>, apiKey: Option<string>, resultId: string,
                   attempts: seq<Attempt>, step: (string, Progress) -> Scanned<string, Progress>)
    requires ValidRequest(req) && |outcomes| == |req.urlsToProcess.value| && |attempts| == MaxAttempts
    requires SurvivingTexts(outcomes) != []
    requires FindModel(models, ModelToUse(req.selectedModel, defaultModel)).Some?
    ensures var texts := SurvivingTexts(outcomes);
      var items := SurvivingItems(req.urlsToProcess.value, outcomes, req.topItems.value);
      var job := Job(req.query.value, Join(texts, SourceSeparator), items, apiKey,
                     FindModel(models, ModelToUse(req.selectedModel, defaultModel)).value, resultId);
      var r := Retry(job, attempts, 1, step, Opener(job));
      SummarizeRoute(req, outcomes, models, defaultModel, apiKey, resultId, attempts, step)
        == Handled([Send(SourcesFrame(items))] + r.acts, r.saved, Some(job), r.attemptsMade)
  {
  }

  /** An unknown model is not replaced by the default: the handler's
      assignment to a constant throws, the browser is told so as an error,
      the response is ended, and the provider is never called. */
  lemma UnknownModelAborts(req: SummarizeRequest, outcomes: seq<Settled>, models: seq<ModelConfig>,
                           defaultModel: Option<string>, apiKey: Option<string>, resultId: string,
                           attempts: seq<Attempt>, step: (string, Progress) -> Scanned<string, Progress>)
    requires ValidRequest(req) && |outcomes| == |req.urlsToProcess.value| && |attempts| == MaxAttempts
    requires exists i :: 0 <= i < |outcomes| && Survives(outcomes[i])
    requires forall i :: 0 <= i < |models| ==> models[i].id != ModelToUse(req.selectedModel, defaultModel)
    ensures var h := SummarizeRoute(req, outcomes, models, defaultModel, apiKey, resultId, attempts, step);
      && h.Handled? && h.call.None? && h.saved.None? && |h.acts| == 4
      && h.acts[2] == Send(ErrorFrame(ConstAssignment)) && h.acts[3] == Close
  {
    NoSurvivors(outcomes);
  }

  /** Doing one send. */
  lemma PerformSend(w: Wire, f: Frame)
    ensures Perform(w, [Send(f)]) == if w.ended then w else Wire(w.log + [Sent(f)], false)
  {
    assert [Send(f)][1..] == [];
  }

  /** Every request that passes the check ends with the response ended. */
  lemma HandledEndsResponse(req: SummarizeRequest, outcomes: seq<Settled>, models: seq<ModelConfig>,
                            defaultModel: Option<string>, apiKey: Option<string>, resultId: string,
                            attempts: seq<Attempt>, step: (string, Progress) -> Scanned<string, Progress>, w: Wire)
    requires ValidRequest(req) && |outcomes| == |req.urlsToProcess.value| && |attempts| == MaxAttempts
    ensures var h := SummarizeRoute(req, outcomes, models, defaultModel, apiKey, resultId, attempts, step);
      h.Handled? && Perform(w, h.acts).ended
  {
    var h := SummarizeRoute(req, outcomes, models, defaultModel, apiKey, resultId, attempts, step);
    var texts := SurvivingTexts(outcomes);
    var items := SurvivingItems(req.urlsToProcess.value, outcomes, req.topItems.value);
    if texts == [] {
      PerformTail(w, ErrorFrame(NoExtraction));
    } else {
      var info := SourcesFrame(items);
      var modelToUse := ModelToUse(req.selectedModel, defaultModel);
      var config := FindModel(models, modelToUse);
      PerformSend(w, info);
      if config.None? {
        PerformAppend(w, [Send(info)], [Send(InvalidModelFrame(modelToUse)), Send(ErrorFrame(ConstAssignment)), Close]);
        PerformTail2(Perform(w, [Send(info)]), InvalidModelFrame(modelToUse), ErrorFrame(ConstAssignment));
      } else {
        var job := h.call.value;
        var r := Retry(job, attempts, 1, step, Opener(job));
        PerformAppend(w, [Send(info)], r.acts);
        RetryEndsResponse(job, attempts, 1, step, Opener(job), Perform(w, [Send(info)]));
      }
    }
  }

  /** The route handler. A refused request gets its error written as raw text
      and the response ended; otherwise the response receives the acts of
      `SummarizeRoute` and the store the record it saves. */
  method ProcessAndSummarize(req: SummarizeRequest, outcomes: seq<Settled>, models: seq<ModelConfig>,
                             defaultModel: Option<string>, apiKey: Option<string>, resultId: string,
                             attempts: seq<Attempt>, decode: string -> Payload, res: Response, store: ResultStore)
    requires ValidRequest(req) ==> |outcomes| == |req.urlsToProcess.value|
    requires |attempts| == MaxAttempts
    requires res as object != store as object
    modifies res, store
    ensures var h := SummarizeRoute(req, outcomes, models, defaultModel, apiKey, resultId, attempts, Step(decode));
      && (h.Refused? ==>
            && res.log == (if old(res.ended) then old(res.log) else old(res.log) + [Raw(InvalidRequestEvent)])
            && res.ended && store.results == old(store.results))
      && (h.Handled? ==>
            && Wire(res.log, res.ended) == Perform(Wire(old(res.log), old(res.ended)), h.acts)
            && store.results == if h.saved.Some? then old(store.results)[resultId := h.saved.value] else old(store.results))
  {
    ghost var w0 := Wire(res.log, res.ended);
    if !ValidRequest(req) {
      res.Write(InvalidRequestEvent);
      res.End();
      return;
    }
    var texts, items := MergeExtractions(req.urlsToProcess.value, outcomes, req.topItems.value);
    if texts == [] {
      var frame := ErrorFrame(NoExtraction);
      res.SendSseMessage(frame.data, frame.event);
      res.End();
      PerformTail(w0, frame);
      return;
    }
    var combinedText := Join(texts, SourceSeparator);
    var info := SourcesFrame(items);
    res.SendSseMessage(info.data, info.event);
    PerformSend(w0, info);
    ghost var w1 := Wire(res.log, res.ended);
    var modelToUse := ModelToUse(req.selectedModel, defaultModel);
    var modelConfig := FindModel(models, modelToUse);
    if modelConfig.None? {
      var notice, thrown := InvalidModelFrame(modelToUse), ErrorFrame(ConstAssignment);
      res.SendSseMessage(notice.data, notice.event);
      res.SendSseMessage(thrown.data, thrown.event);
      res.End();
      PerformAppend(w0, [Send(info)], [Send(notice), Send(thrown), Close]);
      PerformTail2(w1, notice, thrown);
      return;
    }
    var job := Job(req.query.value, combinedText, items, apiKey, modelConfig.value, resultId);
    var success := ProcessLlmStreamWithRetry(job, attempts, decode, res, store);
    PerformAppend(w0, [Send(info)], Retry(job, attempts, 1, Step(decode), Opener(job)).acts);
  }
}

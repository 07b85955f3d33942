# Deep Research: a verified model of the research pipeline

The modelled application is a small web application for research. A signed-in
browser sends a query to `/search`. The server asks a web-search API for hits
and scores each hit by its domain and by the keywords it mentions. It keeps the
best few hits, and the browser then sends their URLs to `/process-and-summarize`.
That route extracts the readable text of each page and merges what survived. It
then asks a language-model provider for an answer and streams that answer back
as server-sent events. Up to three attempts are made. A successful answer is
saved under a fresh id and can be read again at `/research/<id>`. The browser
decodes the event stream, updates the page, lists the sources when the stream
ends and keeps a history of past runs. Every API request passes a session-cookie
check and a daily per-client request counter.

The model covers these parts, one Dafny module each:

- `Text`, `Json` and `Seqs`: the runtime primitives the code relies on. They
  are `trim`, `indexOf`, splitting a buffer into lines, `parseInt`,
  `JSON.stringify`, `slice` and the stable `sort`.
- `Config`: the start-up settings, the model list with its validation and
  fallback, and the default model.
- `RateLimit`: the session check, the client fingerprint, and the daily usage
  file. The file is the state of the class `UsageStore`.
- `Scoring` and `Routes`: hit scoring and selection, the `/search` handler, the
  id check of `/research/:id`, `escapeHTML`, and the sources section of the
  result page.
- `Crawler` and `Extractor`: `searchWeb` and `extractContent`.
- `Llm`: the guard clauses, the prompt, the request body and the error messages
  of the provider call.
- `Sse`: the event-stream framing. The response is the class `Response`.
- `Upstream`: the decoder of the provider's stream. It is the class
  `StreamDecoder`.
- `Orchestrator`: the retry loop `processLlmStreamWithRetry`. It has the result
  store `ResultStore`.
- `Pipeline`: the `/process-and-summarize` route.
- `Client`: the browser's stream consumer (the class `StreamConsumer`), the
  clean-up at stream end, and the history order.

Network replies, file reads and writes, `JSON.parse` on the browser, the DOM's
`escapeHTML`, the hostname `new URL(url).hostname` gives for a non-empty link,
and the fresh result id are inputs of the model. The central
properties:

- What the server writes is what the browser reads back (`Sse.RoundTrip`,
  `Client.ClientReadsServer`).
- However the decoded text of a stream is cut into chunks, both line decoders
  produce the same result (`Text.ScanChunks`, `Orchestrator.FeedIsScan`). The
  browser decodes its bytes with a streaming `TextDecoder`, so this holds for
  its byte chunks too; the server does not (see "## Left out").
- The answer that is saved is exactly what was streamed, and nothing of a
  rejected attempt survives (`Upstream.AnswerIsForwarded`,
  `Orchestrator.SavedAnswer`).
- At most three attempts are made, and the exhaustion report is sent exactly
  once (`Orchestrator.RetryAttempts`, `Orchestrator.ExhaustionReportedOnce`).
  After an attempt whose save failed, nothing later reaches the browser
  (`Orchestrator.SaveFailureSilencesRetries`).
- The daily ceiling holds for requests handled one at a time
  (`RateLimit.RequestsUpToLimit`).
- The selection keeps the best-scored hits, in a stable order
  (`Scoring.SelectTop`, `Scoring.SelectKeepsBest`).

Where the repository's description and its code differ, the model follows the
code:

- A keyword adds one point however often it occurs. The description counts
  occurrences.
- An empty `/search` query is still counted against the daily limit, because
  the limiter runs first.
- An unknown `selectedModel` is not replaced by the default model. The handler
  assigns to a `const`, which throws a `TypeError`, and the browser receives
  that error as an `error` frame.
- The server's `escapeHTML` changes only `'`. Its other four replacements are
  the characters themselves.

## Model

| member | source | states |
|---|---|---|
| Text.Trim | server.js:435 | the result has no whitespace at either end and is no longer than the input |
| Text.TrimIsInfix | server.js:435 | trimming keeps an infix and removes only whitespace before and after it |
| Text.AllSpaceTrim | src/llm.js:23 | the trimmed text is empty exactly when the text is all whitespace |
| Text.IndexOfChar | server.js:434 | -1 exactly when the character is absent, otherwise the position of its first occurrence |
| Text.ToLower | server.js:365-366 | same length; ASCII capitals become lower case and every other character is kept |
| Text.NatToString | server.js:663 | a non-empty run of decimal digits, without a leading zero |
| Text.NatToStringRoundTrip | server.js:663 | reading the rendering of a number back gives the number |
| Text.NatToStringInjective | server.js:663 | different numbers render differently |
| Text.ParseIntReads | server.js:27-28 | parseInt with radix 10 reads a rendered integer back, after any leading whitespace and before any non-digit |
| Text.LastField | public/js/main.js:370 | a separator-free suffix of the input, preceded by a separator whenever it is not the whole input |
| Text.LastFieldAfter | public/js/main.js:370 | the last field of a prefix, the separator and a separator-free field is that field |
| Text.LinesReassemble | public/js/main.js:331-336 | the complete lines, each with its newline, followed by the remainder give back the buffer |
| Text.LinesOfUnlines | server.js:432-436 | newline-free lines, each terminated, followed by a tail split back into those lines and that tail |
| Text.LinesOfConcat | public/js/main.js:331-336 | splitting a, then the remainder followed by c, gives the lines and remainder of a + c |
| Text.ScanChunks | server.js:428-436 | a line decoder fed two chunks produces the same output and ends in the same state as one fed their concatenation |
| Json.Get | public/js/main.js:356 | a value is found only in an object holding that key with that value; None on an object means no field has the key |
| Json.AsString | public/js/main.js:350 | a string only when the value is a JSON string, and then that string |
| Json.Stringify | server.js:571 | the text is wire-safe: non-empty, no raw newline, and no whitespace at either end |
| Json.ParseQuote | server.js:571 | parsing the stringified form of a string gives the string back |
| Json.EscapeRoundTrip | server.js:571 | unescaping the escaped characters of a string gives the string back |
| Seqs.SliceTo | server.js:390 | a prefix of the input, of length min(end, n) for a non-negative end |
| Seqs.SortDesc | server.js:388 | the sorted sequence is a permutation of the input |
| Seqs.SortDescSorted | server.js:388 | the sorted sequence is non-increasing by key |
| Seqs.SortDescStable | server.js:388 | elements with equal keys keep their input order |
| Seqs.SortDescOfSorted | server.js:388 | sorting a non-increasing sequence changes nothing |
| Scoring.KeywordCountIsMatchedSet | server.js:375-377 | with distinct keywords, the count is the number of different keywords that occur in the text |
| Scoring.ScoreRange | server.js:362-386 | a hit whose URL does not parse scores exactly -10; one whose URL parses scores between -5 and 18 |
| Scoring.ScoreParts | server.js:370-377 | the score is +5 for a preferred domain, -5 for a less-preferred one, plus one per distinct keyword found |
| Scoring.Hostname | server.js:364-370 | a hit without a link is checked as the empty URL, which never parses |
| Scoring.MissingLinkScoresLowest | server.js:362-386 | a hit without a link, or with an empty one, scores exactly -10 |
| Scoring.ScoreItem | server.js:362-386 | the scoring loop returns the specified score |
| Scoring.PresentLinks | server.js:391 | no more links than hits, none empty, and a link is listed exactly when some top hit has it |
| Scoring.PresentLinksOne | server.js:391 | one hit gives its link when that link is non-empty, and nothing otherwise |
| Scoring.PresentLinksAppend | server.js:391 | the links of two runs of hits are those of the first followed by those of the second, so order and repeats are kept |
| Scoring.SelectTop | server.js:388-390 | the selection is the first min(limit, n) hits sorted by score, highest first; it is a permutation and is stable on equal scores |
| Scoring.SelectKeepsBest | server.js:388-390 | every selected hit scores at least as much as every hit that was left out |
| Config.IntSetting | server.js:27-28 | an unset, digitless or zero setting gives the fallback; otherwise the value parsed |
| Config.IntSettingReads | server.js:27-28 | a padded integer setting is taken as written, except zero, which falls back |
| Config.AvailableModels | server.js:30-58 | never empty and every entry valid; the configured list is kept exactly when it is non-empty and all valid, otherwise the single fallback model |
| Config.LoadAvailableModels | server.js:30-58 | the start-up loop with its throw and catch yields the specified model list |
| Config.FirstDefault | server.js:60 | the first model marked as default, and None exactly when none is marked |
| Config.DefaultModel | server.js:60 | the environment variable whenever it is set |
| Config.FindModel | server.js:609 | None exactly when no model has the id; otherwise a listed model with that id |
| Config.DefaultModelIsConfigured | server.js:60 | without the variable, the default is the first model marked as default, or the first model |
| RateLimit.AuthenticationRefuses | server.js:82-93 | a request is refused exactly when its cookie is not the secret and its path is an API path |
| RateLimit.FirstFilled | server.js:77 | the first non-empty candidate, or the fallback when there is none |
| RateLimit.FingerprintDetermines | server.js:76-80 | equal fingerprints mean equal addresses and equal first 50 characters of the user agent |
| RateLimit.StoredCount | server.js:96-111 | 0 for a missing or unreadable file or a missing entry, otherwise the stored count |
| RateLimit.Gate | server.js:135-153 | at the limit: refused, with the file unchanged; otherwise admitted with count + 1, which is stored when the write succeeds |
| RateLimit.GateChangesOneKey | server.js:113-133 | a pass changes the stored entries at most at the requesting fingerprint |
| RateLimit.GateKeepsCeiling | server.js:139-149 | no pass takes a stored count above the limit |
| RateLimit.OverLimitRefused | server.js:137-145 | a file already at or above the limit refuses every request, reporting the stored count |
| RateLimit.RequestsUpToLimit | server.js:135-153 | consecutive requests are admitted with counts c + 1, c + 2, ... up to the limit, and every later one is refused |
| RateLimit.UsageStore.GetUsageData | server.js:96-111 | returns the stored count of the fingerprint and changes nothing |
| RateLimit.UsageStore.UpdateUsageData | server.js:113-133 | sets one entry of the day's file, starting from an empty map when the file is unreadable; a failed write leaves the file unchanged |
| RateLimit.UsageStore.RateLimitMiddleware | server.js:135-153 | for any day file, the decision and the new file are those of Gate, and a file within the limit stays within it |
| Routes.EmptyQueryStillCounts | server.js:344-349 | an empty query from a signed-in client under its limit is answered 400 and still counted |
| Routes.RefusalsCountNothing | server.js:82-93 | unauthenticated or rate-limited requests leave every count as it was |
| Routes.Search | server.js:344-402 | the answer and the new usage file are those of the /search specification |
| Routes.IdPatternIsUuid | server.js:647-648 | the id pattern accepts exactly the UUID layout of RFC 4122, section 3 |
| Routes.EscapeHtml | server.js:155-167 | the result holds no apostrophe, and text without one is returned unchanged |
| Routes.EscapeHtmlAppend | server.js:155-167 | escaping works character by character: it distributes over concatenation |
| Routes.MarkupPassesThrough | server.js:155-167 | markup characters pass through unescaped |
| Routes.SourceHref | server.js:661 | never empty: the escaped link, or "#" without one |
| Routes.SourceIdsDistinct | server.js:663 | different positions get different source ids |
| Routes.SourceEntriesAppend | server.js:660-663 | one more source appends its entry, numbered after the others |
| Routes.RenderSourceList | server.js:657-664 | the loop builds the entries of all sources, numbered from 1 |
| Routes.ResearchPage | server.js:645-672 | the 400 reply exactly when the id is not a UUID, the 404 reply exactly when it is one with no stored result, and the result page exactly when a result is stored under the UUID |
| Routes.ServeResearchPage | server.js:645-672 | the reply is the specified page |
| Crawler.NumPages | src/crawler.js:31 | no page for a non-positive total; otherwise the fewest pages of ten that cover the total |
| Crawler.PagePlan | src/crawler.js:37-45 | one request per page, page i asking for ten results from 10i + 1 |
| Crawler.PagesTileTotal | src/crawler.js:37-45 | the pages ask for consecutive, non-overlapping ranges that start at 1 and cover the total with less than a page to spare |
| Crawler.CombinedAppend | src/crawler.js:73-97 | merging distributes over concatenation of the settled pages |
| Crawler.FailedPageSkipped | src/crawler.js:73-97 | a failed or empty page contributes nothing and does not disturb the others |
| Crawler.SearchWebSpec | src/crawler.js:12-28 | no query, key or engine id gives no requests and no items |
| Crawler.SearchWebPrefix | src/crawler.js:68-102 | the items are the first min(total, n) of the merged items in page order |
| Crawler.SearchWeb | src/crawler.js:12-103 | the request loop and the merge loop yield the specified requests and items |
| Extractor.CollapseNewlines | src/extractor.js:50 | the result never holds three newlines in a row |
| Extractor.CollapseOfNoTriple | src/extractor.js:50 | text without three newlines in a row is left unchanged |
| Extractor.CollapseIdempotent | src/extractor.js:50 | collapsing twice is collapsing once |
| Extractor.CollapseKeepsText | src/extractor.js:50 | only newlines are removed: the other characters are kept, in order |
| Extractor.PrimaryText | src/extractor.js:42-51 | no three newlines in a row and no whitespace at either end |
| Extractor.Solid | src/extractor.js:56 | the non-whitespace characters of a text, in order |
| Extractor.SolidAppend | src/extractor.js:56 | the non-whitespace of two texts is that of the first followed by that of the second |
| Extractor.TrimKeepsSolid | src/extractor.js:56 | trimming keeps every non-whitespace character, in order |
| Extractor.CollapseWhitespace | src/extractor.js:56 | the result is single-spaced |
| Extractor.CollapseWhitespaceKeepsText | src/extractor.js:56 | only whitespace is replaced: the non-whitespace characters are kept, in order |
| Extractor.CollapseWhitespaceBlank | src/extractor.js:56 | the result is all whitespace exactly when the input is |
| Extractor.CollapseWhitespaceOfSingleSpaced | src/extractor.js:56 | single-spaced text is left unchanged |
| Extractor.FallbackText | src/extractor.js:53-57 | the body's non-whitespace characters in their order, single-spaced and trimmed, and empty exactly when the body is all whitespace |
| Extractor.ExtractContent | src/extractor.js:9-70 | None exactly when the fetch threw or the page fails the status and content-type gate; otherwise trimmed text |
| Extractor.ExtractedText | src/extractor.js:42-60 | an accepted page gives the primary text when it is non-empty; otherwise the fallback over the body text, which keeps the body's non-whitespace in order |
| Llm.Guard | src/llm.js:15-26 | None exactly when key, model and non-blank text are present; otherwise the message of the first failing guard, in order |
| Llm.EntryLinesSingle | src/llm.js:33-35 | with single-line titles and links, no line of the list holds a line break |
| Llm.SourceListLines | src/llm.js:28-35 | the list splits into two lines per source, the i-th title line numbered i + 1 |
| Llm.SourceListSplits | src/llm.js:28-35 | with single-line titles and links, the list text followed by a newline splits into exactly the lines of its entries |
| Llm.PromptEmbeds | src/llm.js:37-77 | the query and the text appear verbatim, each between its heading's separator lines, and the prompt begins with the intro |
| Llm.RequestBody | src/llm.js:90-96 | the body names the model and the single user message, and asks for a stream exactly in the streaming variant |
| Llm.StreamFailureDistinguishes | src/llm.js:110-124 | equal failure messages mean the same kind of failure with the same status or setup message |
| Llm.OpenStream | src/llm.js:14-124 | a guard failure is reported without a request; otherwise the posted body, or the failure message |
| Llm.Summarize | src/llm.js:131-239 | never throws: each failing guard gives its message, a readable answer is returned trimmed, and every failure gives its error message |
| Sse.BodyOfFrames | server.js:570-573 | the body of the frames sent is their encoding, frame after frame |
| Sse.Response.Write | server.js:559 | appends the text to the log unless the response has ended |
| Sse.Response.SendSseMessage | server.js:570-573 | appends the encoded frame unless the response has ended |
| Sse.Response.End | server.js:523-525 | the response is ended and its log unchanged |
| Sse.DecodeLine | public/js/main.js:335-340 | at most one dispatch, made under the current event, after which the event is message; only an event line changes the event otherwise |
| Sse.ServerEventNames | server.js:570-573 | the four event names the server uses are read back exactly |
| Sse.EncodeIsFrameLines | server.js:570-573 | the encoding of a sequence of frames is their lines, three per frame, each followed by a newline |
| Sse.DecodeFrame | public/js/main.js:334-340 | the lines of one frame dispatch its payload text under its event name |
| Sse.DecodeFrames | public/js/main.js:334-340 | every frame becomes one dispatch of its own event and exact payload, in order |
| Sse.RoundTrip | public/js/main.js:331-340 | the server's text splits into complete lines with nothing left over, and those lines decode to one dispatch per frame |
| Upstream.ProviderLine | server.js:435-462 | nothing happens after the abort; the answer grows by what is forwarded; at most one non-empty delta per line |
| Upstream.StepIsLineHandler | server.js:435-462 | the line step has the properties the decoder relies on |
| Upstream.AnswerIsForwarded | server.js:452-456 | the answer grows by exactly the forwarded deltas, in order |
| Upstream.AbortedIgnoresRest | server.js:429 | after the abort nothing is forwarded and nothing changes |
| Upstream.SkippedLines | server.js:437-442 | non-data lines, the [DONE] marker and unparsable payloads change nothing |
| Upstream.ErrorAborts | server.js:444-449 | a payload carrying an error aborts with its message |
| Upstream.StreamDecoder.constructor | server.js:423-425 | a fresh decoder has an empty buffer, an empty answer and no abort |
| Upstream.StreamDecoder.OnError | server.js:528-531 | the stream records the failure and nothing else changes |
| Upstream.StreamDecoder.OnData | server.js:428-466 | decodes the complete lines of the buffer, forwards each delta as a message frame and keeps the unterminated rest |
| Orchestrator.Perform | server.js:570-573 | frames are delivered in order until the end, and nothing after it |
| Orchestrator.PerformDeltas | server.js:453-456 | sending the delta frames delivers the message frames of those deltas |
| Orchestrator.FeedIsScan | server.js:428-436 | however the decoded text of the body is cut into chunks, the attempt decodes the complete lines of the whole text |
| Orchestrator.SetupErrorOfOpenStream | server.js:415-421 | the setup error is exactly the failure of opening the stream |
| Orchestrator.AttemptShape | server.js:468-534 | a resolved attempt saved its record and ended the response; a rejected one saved nothing; setup failures send nothing |
| Orchestrator.SavedAnswer | server.js:486-503 | the saved answer is the concatenation of this attempt's forwarded deltas, decoded from an empty answer |
| Orchestrator.RetryAttempts | server.js:536-547 | at most three attempts, each after a rejection; success exactly when one resolves, and the first that does is saved |
| Orchestrator.AttemptReportsNothing | server.js:468-534 | no attempt sends the final error frame itself |
| Orchestrator.ExhaustionReportedOnce | server.js:540-545 | the exhaustion report is sent exactly once, as the last frame, when all three attempts were rejected, and never otherwise |
| Orchestrator.PerformAfterEnd | server.js:521-525 | once the response has ended, nothing more reaches the browser |
| Orchestrator.SaveFailureSilencesRetries | server.js:516-539 | an attempt whose save failed ends the response, and nothing a later attempt sends, neither a link frame nor the exhaustion report, is delivered |
| Orchestrator.RetryEndsResponse | server.js:536-547 | whichever way the retry goes, the response is ended |
| Orchestrator.ResultStore.Save | server.js:501-503 | the store maps the id to the record and nothing else changes |
| Orchestrator.EndOnce | server.js:521-525 | the response is ended and its log unchanged |
| Orchestrator.FeedChunks | server.js:428-466 | feeding the chunks delivers the frames of the specified decode |
| Orchestrator.RunAttempt | server.js:411-534 | the response and the store change as the attempt specification says |
| Orchestrator.FinishSaved | server.js:501-526 | the record is saved, then the link and [DONE] frames are sent and the response is ended |
| Orchestrator.FinishUnsaved | server.js:516-526 | the save-failure error frame is sent and the response is ended |
| Orchestrator.RetryTurn | server.js:536-547 | one turn of the retry loop either resolves, retries, or reports the exhaustion |
| Orchestrator.ProcessLlmStreamWithRetry | server.js:405-548 | the loop leaves the response and the store as the retry specification says |
| Pipeline.Kept | server.js:583-585 | the text of a fulfilled, non-null outcome, and nothing otherwise |
| Pipeline.FindByLink | server.js:587 | an item of the list whose link is the URL, and None exactly when no item has it |
| Pipeline.MatchedItem | server.js:583-592 | a surviving extraction contributes the item `find` gives for its URL, or nothing when there is none; a failed one contributes nothing |
| Pipeline.SurvivingItems | server.js:576-597 | no more items than outcomes |
| Pipeline.SurvivingItemsAppend | server.js:576-597 | the items merge as a fold in URL order: the first URLs contribute first, each on its own |
| Pipeline.SurvivingItemsOne | server.js:583-592 | a single URL contributes exactly its matched item |
| Pipeline.SurvivingTexts | server.js:576-597 | no more texts than outcomes |
| Pipeline.SurvivingTextsAppend | server.js:576-597 | the merge is a fold in URL order: the first outcomes contribute first |
| Pipeline.NoSurvivors | server.js:599-603 | no text survives exactly when no extraction was fulfilled with a value |
| Pipeline.SurvivingItemsMatch | server.js:576-597 | every matched item is a top item with a surviving URL; no more items than texts, and as many when every survivor has one |
| Pipeline.MergeExtractions | server.js:576-597 | the loop yields the surviving texts and items |
| Pipeline.NoSurvivorsNoCall | server.js:599-603 | with no survivor the browser gets one error frame, the response is ended and the provider is not called |
| Pipeline.CallCarriesSurvivors | server.js:605-627 | with a survivor and a configured model, the provider gets the joined texts, the matched items and that model, after the sources frame |
| Pipeline.ProviderNotCalled | server.js:599-627 | otherwise the provider is not called |
| Pipeline.UnknownModelAborts | server.js:608-641 | an unknown model gives an error frame and an ended response, and the provider is not called |
| Pipeline.HandledEndsResponse | server.js:550-643 | every request that passes the check ends with the response ended |
| Pipeline.ProcessAndSummarize | server.js:550-643 | a refused request gets its error and an ended response; otherwise the specified acts and saved record |
| Client.Prune | public/js/main.js:358-365 | no more entries than before, and an entry is kept exactly when it names a processed source's link |
| Client.PruneOne | public/js/main.js:362-364 | one entry stays exactly when it names a processed source |
| Client.PruneAppend | public/js/main.js:360-365 | the entries kept from two runs are those kept from the first followed by those kept from the second, so order and repeats are kept |
| Client.ApplyAppend | public/js/main.js:331-431 | handling two runs of dispatches is handling their concatenation |
| Client.ScanIsDecode | public/js/main.js:331-431 | the line loop is the stream decoder followed by the handlers |
| Client.StreamConsumer.constructor | public/js/main.js:256-321 | the page starts empty with the loading entries and event message |
| Client.StreamConsumer.HandleEvent | public/js/main.js:344-422 | the page changes as the handler specification says |
| Client.StreamConsumer.OnChunk | public/js/main.js:331-431 | the page and the decoder state are those of decoding the buffer's complete lines, and the rest is kept |
| Client.RemoveUnprocessed | public/js/main.js:360-365 | the loop keeps exactly the pruned entries |
| Client.ApplyFramesAppend | public/js/main.js:331-431 | handling two runs of frames is handling their concatenation |
| Client.ApplyDecoded | public/js/main.js:331-431 | decoding and parsing the server's frames handles their own payloads |
| Client.ClientReadsServer | public/js/main.js:331-431 | the server's text leaves nothing buffered and leaves the page as handling the frames' payloads in order would |
| Client.AnswerStreamed | public/js/main.js:346-353 | message frames append their deltas to the answer, in order |
| Client.SourceFields | server.js:606 | a source's link and title read back as the item's |
| Client.SourcesFramePrunes | public/js/main.js:355-366 | the sources frame prunes the loading entries, keeping exactly those of processed links |
| Client.ResultLinkSetsId | public/js/main.js:368-370 | the result-link frame sets the research id to the saved result's id |
| Client.ErrorFrameShown | public/js/main.js:416-419 | an error frame shows its escaped message below the answer |
| Client.SuccessfulRun | public/js/main.js:331-431 | a successful run leaves the answer as the deltas, the research id as the saved one, and only processed entries |
| Client.RenderSourceItems | public/js/main.js:510-516 | the loop builds the list entries of all sources |
| Client.SourceAnchorsDistinct | public/js/main.js:515 | every entry carries a different anchor id |
| Client.StreamEnd | public/js/main.js:460-544 | a failed run shows and saves nothing; the listing throws, before the history, for a non-empty string, an array with a null entry, or an object whose length is above zero; otherwise a non-empty source array is shown as the details block with its count and every escaped entry, anything else as the note, and the run is saved exactly when it has an id and a query |
| Client.ServerSourcesRender | public/js/main.js:511-515 | a reported source links to its escaped link, or #, and shows its escaped title or the link |
| Client.HistoryNewestFirst | public/js/main.js:51-63 | every record once, newest first, with equal timestamps kept in store order |

## Left out

- The `cost` field and its `toFixed` rendering are floating point, so `Json` holds integers only and the cost is not part of the link frame.
- Timestamps and dates are not modelled. History timestamps are integers (milliseconds), and invalid dates are not modelled.
- The fresh result id is an input. The generation of a version 4 UUID is not modelled.
- The 5-second wait between attempts is not modelled, and neither are the cost-popup timers.
- Express itself is not modelled: routing, cookie parsing, status codes and headers. A response is the log of what was written to it and whether it has ended.
- The usage files and result files are maps, not files on disk. The model keeps the value; the JSON text written and read back is not modelled.
- The 500 answer of `/research/:id` for a result file that cannot be read or parsed is not modelled. A stored result is always readable.
- The HTTP calls to the search API, the pages and the provider are not modelled. Their outcome is an input of each operation.
- `JSON.parse` on the provider stream and in the browser is an input (`decode`, `parse`). Only the string case of `JSON.parse` is modelled concretely.
- The browser's DOM-based `escapeHTML` is an input (`escape`).
- Cheerio's parsing and element removal are not modelled. The elements it selects are the input of `Extractor`.
- Appending to `innerHTML` is modelled as string concatenation. Browser re-serialisation of the markup is not modelled.
- In `handleStreamEnd`, the refresh of the answer from the result page and the re-enabling of the form are not modelled, and neither is the overlay.
- The shareable-link markup and the cost popup are not modelled.
- Client.StreamEnd: the IndexedDB write is reduced to whether the entry is saved and what it holds.
- Orchestrator.FeedIsScan: a chunk of an attempt stands for the text `chunk.toString()` gives for that chunk's bytes decoded alone (server.js:431). The server thus turns a multibyte UTF-8 character whose bytes fall in two chunks into two U+FFFD characters, so its lines, deltas and saved answer can depend on where the network cut the body; byte chunks and UTF-8 decoding are not modelled.
- Client.StreamEnd: a sources object whose `length` is a string or an array is treated as if that length were not above zero; the string-to-number conversion `>` applies to it is not modelled.
- RateLimit.Gate: requests are taken one at a time. The count is read at server.js:137 and written back through a second read of the file at server.js:119, with awaits in between, so concurrent requests can both be admitted at the limit or overwrite each other's entries; that race is not modelled.
- RateLimit.FingerprintDetermines: the fingerprint cuts the user agent at 50 characters (Unicode code points), while `substring(0, 50)` at server.js:79 cuts at 50 UTF-16 code units; the two differ for user agents holding characters outside the Basic Multilingual Plane.
- Sse.Response.Write: a write after `res.end()` is assumed to be dropped; Node instead raises `ERR_STREAM_WRITE_AFTER_END` unless the socket is already gone, and that error path is not modelled (the same holds for `Sse.Response.SendSseMessage` and `Orchestrator.Perform`).
- Logging is not modelled. The `successfulPages` counter of the crawler is only logged and is not modelled either.
- The result page beyond its sources section is not modelled: the answer markup, the usage block and the styles.
- The error-handling middleware (server.js:754-790) is not modelled.
- The saved record leaves out its timestamp and its cost.
- Pipeline.ProcessAndSummarize: the items sent in the sources frame carry link, title and snippet; other fields of the search API's items are not modelled.
- The structure of the `AVAILABLE_MODELS` entries beyond the validation check is not modelled. The parsed list is the input.
- Text.ToLower: only ASCII letters are lower-cased; the full Unicode case mapping of `toLowerCase` is not modelled.
- Text.ParseIntReads: only integer text is modelled; `parseInt` of very long digit runs that overflow a double is not modelled.
- Json.ParseQuote: `\u` escapes into the surrogate range are not decoded, which does not matter for the stringified forms the server produces.
- The installer scripts for the system service and the test files are not modelled.
- The `/login`, `/api/models` and `/` routes and the static files are not modelled. Only the authentication gate in front of the API routes is.

/** The browser side of a research run (public/js/main.js): the consumer of the
    event stream of `/process-and-summarize`, which splits what arrives into
    lines, dispatches each `data: ` line to the handler of the current event and
    updates the page; the clean-up when the stream ends, which lists the sources
    and decides whether the run goes into the history; and the order in which
    the history is shown. `JSON.parse` and the DOM-based `escapeHTML` are inputs
    (`parse`, `escape`); `parse` answers `None` where `JSON.parse` throws. */
module Client {
  import opened Wrappers
  import opened Text
  import opened Json
  import opened Sse
  import opened Seqs
  import opened Scoring
  import Orchestrator
  import Pipeline

  // ---------------------------------------------------------------------------
  // The page state the handlers change
  // ---------------------------------------------------------------------------

  /** What the stream handlers have built so far: the streamed answer
      (`stream-content`), `processedSources`, the texts of the loading list
      entries still shown, and `currentResearchId`. */
  datatype View = View(content: string, sources: Json, loading: seq<string>, researchId: Option<string>)

  /** The page when the stream starts: nothing streamed, no sources, one
      loading entry per url being processed, no research id. */
  function StartView(urlsToProcess: seq<string>): View {
    View("", JArr([]), urlsToProcess, None)
  }

  const DoneMarker := "[DONE]"

  /** The paragraph an `error` event adds to the answer. */
  function ErrorParagraph(message: string): string {
    "<p class=\"placeholder error\">Server error: " + message + "</p>"
  }

  /** `escapeHTML(v)`: the empty string for anything but a string. */
  function EscapeValue(v: Option<Json>, escape: string -> string): string {
    if v.Some? && v.value.JStr? then escape(v.value.str) else ""
  }

  /** Whether `text` is the link of one of the processed sources, as
      `processedUrls.has(li.textContent)` decides. */
  predicate Processed(sources: seq<Json>, text: string) {
    exists i :: 0 <= i < |sources| && Get(sources[i], "link") == Some(JStr(text))
  }

  /** The loading entries that survive an `info` event: exactly those whose
      text is the link of a processed source, in their order. */
  function Prune(loading: seq<string>, sources: seq<Json>): (r: seq<string>)
    ensures |r| <= |loading|
    ensures forall x :: x in r <==> x in loading && Processed(sources, x)
  {
    if loading == [] then []
    else
      var init := Prune(loading[..|loading| - 1], sources);
      var last := loading[|loading| - 1];
      assert loading == loading[..|loading| - 1] + [last];
      if Processed(sources, last) then init + [last] else init
  }

  /** One loading entry stays exactly when it names a processed source. */
  lemma PruneOne(x: string, sources: seq<Json>)
    ensures Prune([x], sources) == if Processed(sources, x) then [x] else []
  {
    assert [x][..0] == [];
  }

  /** The filter keeps the entries' order and their repeats: the entries kept
      from two runs are those kept from the first followed by those kept from
      the second. */
  lemma {:induction false} PruneAppend(a: seq<string>, b: seq<string>, sources: seq<Json>)
    ensures Prune(a + b, sources) == Prune(a, sources) + Prune(b, sources)
    decreases |b|
  {
    if b == [] {
      assert a + b == a;
    } else {
      var init := b[..|b| - 1];
      assert (a + b)[..|a + b| - 1] == a + init;
      assert (a + b)[|a + b| - 1] == b[|b| - 1];
      PruneAppend(a, init, sources);
    }
  }

  /** `s.link` throws on a `null` element. */
  predicate NoNull(sources: seq<Json>) {
    forall i :: 0 <= i < |sources| ==> sources[i] != JNull
  }

  /** The handler of one parsed `data:` payload under the current event. A
      handler that throws part-way (a `null` payload read as an object, a
      `sources` that is not an array of objects, a `link` that is not a string)
      keeps what it had already changed. */
  function HandleData(v: View, event: string, data: Json, escape: string -> string): View {
    if event == "message" then
      if data == JStr(DoneMarker) then v
      else if data.JStr? then v.(content := v.content + data.str)
      else v
    else if event == "info" then
      var kind := Get(data, "type");
      var sources := Get(data, "sources");
      if kind == Some(JStr("sources_processed")) && sources.Some? && Truthy(sources.value) then
        if sources.value.JArr? && NoNull(sources.value.elems) then
          v.(sources := sources.value, loading := Prune(v.loading, sources.value.elems))
        else
          v.(sources := sources.value)
      else v
    else if event == "resultLink" then
      var link := Get(data, "link");
      if link.Some? && link.value.JStr? && link.value.str != [] then
        v.(researchId := Some(LastField(link.value.str, '/')))
      else v
    else if event == "error" then
      if data.JNull? then v
      else v.(content := v.content + ErrorParagraph(EscapeValue(Get(data, "message"), escape)))
    else v
  }

  /** One dispatched `data:` line: a payload `JSON.parse` rejects changes
      nothing. */
  function Handle(v: View, d: Dispatch, parse: string -> Option<Json>, escape: string -> string): View {
    match parse(d.payload)
    case None => v
    case Some(data) => HandleData(v, d.event, data, escape)
  }

  /** The dispatches handled in order. */
  function Apply(v: View, ds: seq<Dispatch>, parse: string -> Option<Json>, escape: string -> string): View
    decreases |ds|
  {
    if ds == [] then v else Apply(Handle(v, ds[0], parse, escape), ds[1..], parse, escape)
  }

  lemma {:induction false} ApplyAppend(v: View, a: seq<Dispatch>, b: seq<Dispatch>, parse: string -> Option<Json>, escape: string -> string)
    ensures Apply(v, a + b, parse, escape) == Apply(Apply(v, a, parse, escape), b, parse, escape)
    decreases |a|
  {
    if a == [] {
      assert a + b == b;
    } else {
      assert (a + b)[0] == a[0] && (a + b)[1..] == a[1..] + b;
      ApplyAppend(Handle(v, a[0], parse, escape), a[1..], b, parse, escape);
    }
  }

  // ---------------------------------------------------------------------------
  // The line loop
  // ---------------------------------------------------------------------------

  /** The state the line loop carries: the current event and the page. */
  datatype ClientState = ClientState(event: string, view: View)

  /** One complete line: decoded as `Sse.DecodeLine` does, its dispatch (if
      any) handled. */
  function LineStep(rawLine: string, st: ClientState, parse: string -> Option<Json>, escape: string -> string)
    : Scanned<Dispatch, ClientState>
  {
    var d := DecodeLine(rawLine, st.event);
    Scanned(d.out, ClientState(d.state, Apply(st.view, d.out, parse, escape)))
  }

  function Line(parse: string -> Option<Json>, escape: string -> string): (string, ClientState) -> Scanned<Dispatch, ClientState> {
    (rawLine: string, st: ClientState) => LineStep(rawLine, st, parse, escape)
  }

  /** The loop over lines is the stream decoder followed by the handlers: the
      same dispatches, the same final event, and the page the dispatches build
      when handled in order. */
  lemma {:induction false} ScanIsDecode(lines: seq<string>, st: ClientState, parse: string -> Option<Json>, escape: string -> string)
    ensures var d := DecodeLines(lines, st.event);
      Scan(lines, st, Line(parse, escape)) == Scanned(d.out, ClientState(d.state, Apply(st.view, d.out, parse, escape)))
  {
    if lines != [] {
      var first := LineStep(lines[0], st, parse, escape);
      var d0 := DecodeLine(lines[0], st.event);
      ScanIsDecode(lines[1..], first.state, parse, escape);
      var rest := DecodeLines(lines[1..], d0.state);
      ApplyAppend(st.view, d0.out, rest.out, parse, escape);
    }
  }

  /** The handlers of the page with the loop's variables as fields: `buffer`,
      `currentEvent`, the answer, `processedSources`, the loading list and
      `currentResearchId`. */
  class StreamConsumer {
    var buffer: string
    var currentEvent: string
    var content: string
    var processedSources: Json
    var loading: seq<string>
    var researchId: Option<string>
    const parse: string -> Option<Json>
    const escape: string -> string

    function CurrentView(): View
      reads this
    {
      View(content, processedSources, loading, researchId)
    }

    function State(): ClientState
      reads this
    {
      ClientState(currentEvent, CurrentView())
    }

    /** The variables as the submit handler sets them up before reading. */
    constructor (urlsToProcess: seq<string>, parse: string -> Option<Json>, escape: string -> string)
      ensures buffer == "" && State() == ClientState("message", StartView(urlsToProcess))
      ensures this.parse == parse && this.escape == escape
    {
      buffer := "";
      currentEvent := "message";
      content := "";
      processedSources := JArr([]);
      loading := urlsToProcess;
      researchId := None;
      this.parse := parse;
      this.escape := escape;
    }

    /** The `switch (currentEvent)` over one parsed payload. */
    method HandleEvent(event: string, data: Json)
      modifies this
      ensures CurrentView() == HandleData(old(CurrentView()), event, data, escape)
      ensures buffer == old(buffer) && currentEvent == old(currentEvent)
    {
      if event == "message" {
        if data == JStr(DoneMarker) {
        } else if data.JStr? {
          content := content + data.str;
        }
      } else if event == "info" {
        var kind := Get(data, "type");
        var sources := Get(data, "sources");
        if kind == Some(JStr("sources_processed")) && sources.Some? && Truthy(sources.value) {
          processedSources := sources.value;
          if sources.value.JArr? && NoNull(sources.value.elems) {
            loading := RemoveUnprocessed(loading, sources.value.elems);
          }
        }
      } else if event == "resultLink" {
        var link := Get(data, "link");
        if link.Some? && link.value.JStr? && link.value.str != [] {
          researchId := Some(LastField(link.value.str, '/'));
        }
      } else if event == "error" {
        if !data.JNull? {
          content := content + ErrorParagraph(EscapeValue(Get(data, "message"), escape));
        }
      }
    }

    /** One chunk read from the stream: the complete lines of the buffer are
        consumed in order and the unterminated rest is kept. */
    method OnChunk(chunk: string)
      modifies this
      ensures State() == Scan(CompleteLines(old(buffer) + chunk), old(State()), Line(parse, escape)).state
      ensures buffer == Remainder(old(buffer) + chunk)
    {
      buffer := buffer + chunk;
      ghost var total := Scan(CompleteLines(buffer), State(), Line(parse, escape)).state;
      ghost var rest := Remainder(buffer);
      while IndexOfChar(buffer, '\n') != -1
        invariant Scan(CompleteLines(buffer), State(), Line(parse, escape)).state == total
        invariant Remainder(buffer) == rest
        decreases |buffer|
      {
        var lineEnd := IndexOfChar(buffer, '\n');
        ghost var before := State();
        ghost var rawLine := buffer[..lineEnd];
        ScanFirstLine(buffer, lineEnd, before, Line(parse, escape));
        var line := Trim(buffer[..lineEnd]);
        buffer := buffer[lineEnd + 1..];
        if StartsWith(line, "event: ") {
          currentEvent := Trim(line[7..]);
        } else if StartsWith(line, "data: ") {
          var jsonData := line[6..];
          var data := parse(jsonData);
          if data.Some? {
            HandleEvent(currentEvent, data.value);
          }
          currentEvent := "message";
          assert Apply(before.view, [Dispatch(before.event, jsonData)], parse, escape)
              == Handle(before.view, Dispatch(before.event, jsonData), parse, escape);
        }
        assert State() == LineStep(rawLine, before, parse, escape).state;
      }
    }
  }

  /** The `forEach` over the loading entries, removing those not processed. */
  method RemoveUnprocessed(lis: seq<string>, sources: seq<Json>) returns (kept: seq<string>)
    ensures kept == Prune(lis, sources)
  {
    kept := [];
    for i := 0 to |lis|
      invariant kept == Prune(lis[..i], sources)
    {
      assert lis[..i + 1][..i] == lis[..i];
      if Processed(sources, lis[i]) {
        kept := kept + [lis[i]];
      }
    }
    assert lis[..|lis|] == lis;
  }

  // ---------------------------------------------------------------------------
  // Reading what the server sends
  // ---------------------------------------------------------------------------

  /** The frames handled in order, each with its own payload. */
  function ApplyFrames(v: View, frames: seq<Frame>, escape: string -> string): View
    decreases |frames|
  {
    if frames == [] then v else ApplyFrames(HandleData(v, frames[0].event, frames[0].data, escape), frames[1..], escape)
  }

  lemma {:induction false} ApplyFramesAppend(v: View, a: seq<Frame>, b: seq<Frame>, escape: string -> string)
    ensures ApplyFrames(v, a + b, escape) == ApplyFrames(ApplyFrames(v, a, escape), b, escape)
    decreases |a|
  {
    if a == [] {
      assert a + b == b;
    } else {
      assert (a + b)[0] == a[0] && (a + b)[1..] == a[1..] + b;
      ApplyFramesAppend(HandleData(v, a[0].event, a[0].data, escape), a[1..], b, escape);
    }
  }

  lemma {:induction false} ApplyDecoded(v: View, frames: seq<Frame>, parse: string -> Option<Json>, escape: string -> string)
    requires forall j :: parse(Stringify(j)) == Some(j)
    ensures Apply(v, seq(|frames|, i requires 0 <= i < |frames| => Dispatch(frames[i].event, Stringify(frames[i].data))), parse, escape)
         == ApplyFrames(v, frames, escape)
    decreases |frames|
  {
    var ds := seq(|frames|, i requires 0 <= i < |frames| => Dispatch(frames[i].event, Stringify(frames[i].data)));
    if frames != [] {
      assert ds[1..] == seq(|frames[1..]|, i requires 0 <= i < |frames[1..]| => Dispatch(frames[1..][i].event, Stringify(frames[1..][i].data)));
      ApplyDecoded(HandleData(v, frames[0].event, frames[0].data, escape), frames[1..], parse, escape);
    }
  }

  /** The browser reads back what the server writes: the text of a sequence of
      frames leaves nothing buffered and leaves the page as the frames' own
      payloads handled in order would, with the current event back at
      `message`; with `Text.ScanChunks` the same holds however the text is cut
      into chunks. */
  lemma ClientReadsServer(frames: seq<Frame>, v: View, parse: string -> Option<Json>, escape: string -> string)
    requires forall i :: 0 <= i < |frames| ==> EventName(frames[i].event)
    requires forall j :: parse(Stringify(j)) == Some(j)
    ensures Remainder(EncodeFrames(frames)) == ""
    ensures Scan(CompleteLines(EncodeFrames(frames)), ClientState("message", v), Line(parse, escape)).state
         == ClientState("message", ApplyFrames(v, frames, escape))
  {
    RoundTrip(frames);
    ScanIsDecode(CompleteLines(EncodeFrames(frames)), ClientState("message", v), parse, escape);
    ApplyDecoded(v, frames, parse, escape);
    if frames == [] {
      assert CompleteLines(EncodeFrames(frames)) == [];
    }
  }

  /** The deltas forwarded as `message` frames are appended to the answer, in
      order, as long as none of them is the `[DONE]` marker. */
  lemma {:induction false} AnswerStreamed(v: View, deltas: seq<string>, escape: string -> string)
    requires forall i :: 0 <= i < |deltas| ==> deltas[i] != DoneMarker
    ensures ApplyFrames(v, seq(|deltas|, i requires 0 <= i < |deltas| => Orchestrator.MessageFrame(deltas[i])), escape)
         == v.(content := v.content + Concat(deltas))
    decreases |deltas|
  {
    var frames := seq(|deltas|, i requires 0 <= i < |deltas| => Orchestrator.MessageFrame(deltas[i]));
    if deltas == [] {
      assert v.content + Concat(deltas) == v.content;
    } else {
      var w := v.(content := v.content + deltas[0]);
      assert HandleData(v, frames[0].event, frames[0].data, escape) == w;
      assert frames[1..] == seq(|deltas[1..]|, i requires 0 <= i < |deltas[1..]| => Orchestrator.MessageFrame(deltas[1..][i]));
      AnswerStreamed(w, deltas[1..], escape);
      AppendAssoc(v.content, deltas[0], Concat(deltas[1..]));
    }
  }

  /** Fields appended under other keys do not hide a key. */
  lemma {:induction false} LookupSkip(fields: seq<(string, Json)>, extra: seq<(string, Json)>, key: string)
    requires forall i :: 0 <= i < |extra| ==> extra[i].0 != key
    ensures Lookup(fields + extra, key) == Lookup(fields, key)
    decreases |extra|
  {
    if extra == [] {
      assert fields + extra == fields;
    } else {
      var n := |extra| - 1;
      assert (fields + extra)[..|fields + extra| - 1] == fields + extra[..n];
      assert (fields + extra)[|fields + extra| - 1] == extra[n];
      LookupSkip(fields, extra[..n], key);
    }
  }

  /** A source's `link` and `title` are the item's. */
  lemma SourceFields(item: SearchItem)
    ensures Get(Pipeline.ItemJson(item), "link") == if item.link.Some? then Some(JStr(item.link.value)) else None
    ensures Get(Pipeline.ItemJson(item), "title") == if item.title.Some? then Some(JStr(item.title.value)) else None
  {
    var l: seq<(string, Json)> := if item.link.Some? then [("link", JStr(item.link.value))] else [];
    var t: seq<(string, Json)> := if item.title.Some? then [("title", JStr(item.title.value))] else [];
    var n: seq<(string, Json)> := if item.snippet.Some? then [("snippet", JStr(item.snippet.value))] else [];
    assert Pipeline.ItemJson(item).fields == l + t + n;
    LinkField(l, t, n);
    TitleField(l, t, n);
  }

  lemma LinkField(l: seq<(string, Json)>, t: seq<(string, Json)>, n: seq<(string, Json)>)
    requires forall i :: 0 <= i < |t| ==> t[i].0 == "title"
    requires forall i :: 0 <= i < |n| ==> n[i].0 == "snippet"
    ensures Lookup(l + t + n, "link") == Lookup(l, "link")
  {
    LookupSkip(l + t, n, "link");
    LookupSkip(l, t, "link");
  }

  lemma TitleField(l: seq<(string, Json)>, t: seq<(string, Json)>, n: seq<(string, Json)>)
    requires forall i :: 0 <= i < |l| ==> l[i].0 == "link"
    requires forall i :: 0 <= i < |n| ==> n[i].0 == "snippet"
    ensures Lookup(l + t + n, "title") == Lookup(t, "title")
  {
    LookupSkip(l + t, n, "title");
    LookupPrefix(l, t, "title");
  }

  /** Fields under other keys in front of a key do not change what it reads. */
  lemma {:induction false} LookupPrefix(prefix: seq<(string, Json)>, fields: seq<(string, Json)>, key: string)
    requires forall i :: 0 <= i < |prefix| ==> prefix[i].0 != key
    ensures Lookup(prefix + fields, key) == Lookup(fields, key)
    decreases |fields|
  {
    if fields == [] {
      assert prefix + fields == prefix;
      LookupSkip([], prefix, key);
      assert [] + prefix == prefix;
    } else {
      var n := |fields| - 1;
      assert (prefix + fields)[..|prefix + fields| - 1] == prefix + fields[..n];
      assert (prefix + fields)[|prefix + fields| - 1] == fields[n];
      LookupPrefix(prefix, fields[..n], key);
    }
  }

  /** The `info` frame listing the processed sources keeps exactly the loading
      entries that name the link of one of those sources. */
  lemma SourcesFramePrunes(v: View, items: seq<SearchItem>, escape: string -> string)
    ensures var w := ApplyFrames(v, [Pipeline.SourcesFrame(items)], escape);
      && w.content == v.content && w.researchId == v.researchId
      && w.sources == Pipeline.SourcesFrame(items).data.fields[2].1
      && w.loading == Prune(v.loading, w.sources.elems)
      && forall x :: x in w.loading <==> x in v.loading && exists i :: 0 <= i < |items| && items[i].link == Some(x)
  {
    var f := Pipeline.SourcesFrame(items);
    var elems := seq(|items|, i requires 0 <= i < |items| => Pipeline.ItemJson(items[i]));
    assert f.data.fields == [("type", JStr("sources_processed"))] + [("count", JInt(|items|)), ("sources", JArr(elems))];
    LookupSkip([("type", JStr("sources_processed"))], [("count", JInt(|items|)), ("sources", JArr(elems))], "type");
    assert Get(f.data, "type") == Some(JStr("sources_processed"));
    assert Get(f.data, "sources") == Some(JArr(elems));
    assert [f][1..] == [];
    forall x
      ensures Processed(elems, x) <==> exists i :: 0 <= i < |items| && items[i].link == Some(x)
    {
      if Processed(elems, x) {
        var i :| 0 <= i < |elems| && Get(elems[i], "link") == Some(JStr(x));
        SourceFields(items[i]);
      }
      if exists i :: 0 <= i < |items| && items[i].link == Some(x) {
        var i :| 0 <= i < |items| && items[i].link == Some(x);
        SourceFields(items[i]);
        assert Get(elems[i], "link") == Some(JStr(x));
      }
    }
  }

  /** The `resultLink` frame gives the page the research id it names. */
  lemma ResultLinkSetsId(v: View, resultId: string, usage: Option<Json>, escape: string -> string)
    requires '/' !in resultId
    ensures ApplyFrames(v, [Orchestrator.LinkFrame(resultId, usage)], escape) == v.(researchId := Some(resultId))
  {
    var f := Orchestrator.LinkFrame(resultId, usage);
    var link := "/research/" + resultId;
    var extra: seq<(string, Json)> := if usage.Some? then [("usage", usage.value)] else [];
    assert f.data.fields == [("link", JStr(link))] + extra;
    LookupSkip([("link", JStr(link))], extra, "link");
    assert Get(f.data, "link") == Some(JStr(link));
    assert link == "/research" + ['/'] + resultId;
    LastFieldAfter("/research", '/', resultId);
    assert [f][1..] == [];
  }

  /** An `error` frame shows its escaped message below the answer. */
  lemma ErrorFrameShown(v: View, message: string, escape: string -> string)
    ensures ApplyFrames(v, [Orchestrator.ErrorFrame(message)], escape)
         == v.(content := v.content + ErrorParagraph(escape(message)))
  {
    assert [Orchestrator.ErrorFrame(message)][1..] == [];
  }

  /** A successful run as the browser sees it: the sources frame, the deltas,
      the result link and the `[DONE]` marker leave the answer as the deltas
      in order, the research id as the saved result's, and only the loading
      entries of processed sources. */
  lemma SuccessfulRun(v: View, items: seq<SearchItem>, deltas: seq<string>, resultId: string, usage: Option<Json>, escape: string -> string)
    requires forall i :: 0 <= i < |deltas| ==> deltas[i] != DoneMarker
    requires '/' !in resultId
    ensures var frames := [Pipeline.SourcesFrame(items)]
                        + seq(|deltas|, i requires 0 <= i < |deltas| => Orchestrator.MessageFrame(deltas[i]))
                        + [Orchestrator.LinkFrame(resultId, usage), Orchestrator.MessageFrame(DoneMarker)];
      var w := ApplyFrames(v, frames, escape);
      && w.content == v.content + Concat(deltas)
      && w.researchId == Some(resultId)
      && forall x :: x in w.loading <==> x in v.loading && exists i :: 0 <= i < |items| && items[i].link == Some(x)
  {
    var info := [Pipeline.SourcesFrame(items)];
    var answer := seq(|deltas|, i requires 0 <= i < |deltas| => Orchestrator.MessageFrame(deltas[i]));
    var link := Orchestrator.LinkFrame(resultId, usage);
    var done := Orchestrator.MessageFrame(DoneMarker);
    ApplyFramesAppend(v, info + answer, [link, done], escape);
    ApplyFramesAppend(v, info, answer, escape);
    var v1 := ApplyFrames(v, info, escape);
    SourcesFramePrunes(v, items, escape);
    AnswerStreamed(v1, deltas, escape);
    var v2 := ApplyFrames(v1, answer, escape);
    ApplyFramesAppend(v2, [link], [done], escape);
    assert [link, done] == [link] + [done];
    ResultLinkSetsId(v2, resultId, usage, escape);
    assert [done][1..] == [];
  }

  // ---------------------------------------------------------------------------
  // When the stream ends: `handleStreamEnd`
  // ---------------------------------------------------------------------------

  /** `source.link ? escapeHTML(source.link) : '#'`. */
  function SourceHref(source: Json, escape: string -> string): string {
    var link := Get(source, "link");
    if link.Some? && Truthy(link.value) then EscapeValue(link, escape) else "#"
  }

  /** `source.title ? escapeHTML(source.title) : link`. */
  function SourceLabel(source: Json, escape: string -> string): string {
    var title := Get(source, "title");
    if title.Some? && Truthy(title.value) then EscapeValue(title, escape) else SourceHref(source, escape)
  }

  /** The list entry of source `i` (from 0), with the 1-based anchor id the
      answer's citations point at. */
  function SourceEntry(i: nat, source: Json, escape: string -> string): string {
    "<li id=\"source-" + NatToString(i + 1) + "\"><a href=\"" + SourceHref(source, escape) + "\" target=\"_blank\">"
      + SourceLabel(source, escape) + "</a></li>"
  }

  /** `sourceListItems` once every source has been listed. */
  function SourceListItems(sources: seq<Json>, escape: string -> string): string {
    if sources == [] then ""
    else SourceListItems(sources[..|sources| - 1], escape) + SourceEntry(|sources| - 1, sources[|sources| - 1], escape)
  }

  /** The `forEach` accumulating `sourceListItems`. */
  method RenderSourceItems(sources: seq<Json>, escape: string -> string) returns (sourceListItems: string)
    ensures sourceListItems == SourceListItems(sources, escape)
  {
    sourceListItems := "";
    for index := 0 to |sources|
      invariant sourceListItems == SourceListItems(sources[..index], escape)
    {
      var entry := SourceEntry(index, sources[index], escape);
      assert sources[..index + 1][..index] == sources[..index];
      sourceListItems := sourceListItems + entry;
    }
    assert sources[..|sources|] == sources;
  }

  /** Every entry of the list carries a different anchor id. */
  lemma SourceAnchorsDistinct(i: nat, j: nat)
    requires i != j
    ensures "source-" + NatToString(i + 1) != "source-" + NatToString(j + 1)
  {
    var a := "source-" + NatToString(i + 1);
    var b := "source-" + NatToString(j + 1);
    if a == b {
      assert a[7..] == NatToString(i + 1) && b[7..] == NatToString(j + 1);
      NatToStringInjective(i + 1, j + 1);
    }
  }

  function SourcesDetails(count: nat, sourceListItems: string): string {
    "\n            <details style=\"margin-top: 20px;\">\n"
      + "                <summary style=\"cursor: pointer; font-weight: bold; color: #ccc;\">Show sources used ("
      + NatToString(count) + ")</summary>\n"
      + "                <ul style=\"margin-top: 10px;\">" + sourceListItems + "</ul>\n"
      + "            </details>\n        "
  }

  const NoSourcesParagraph := "<p style=\"margin-top: 20px; color: #aaa;\">No sources were processed for this result.</p>"

  /** A history record: the research id, the query and the time it was saved
      (milliseconds, as `new Date(timestamp)` reads the ISO string back). */
  datatype HistoryEntry = HistoryEntry(id: string, query: string, timestamp: int)

  /** How `handleStreamEnd` finishes: what it puts in the sources container
      (`None` when it leaves it alone) and the history record it saves, or a
      `TypeError` while listing the sources (see `ListingThrows`), which stops
      it before the history. */
  datatype Ending = Ending(sourcesHtml: Option<string>, saved: Option<HistoryEntry>) | ListingThrew

  /** `v > 0` for a `length` property read off a parsed object: a number
      above zero or `true`; `undefined`, `null`, `false` and an object are
      not. A string or array `length` goes through the string-to-number
      conversion, which is not modelled: it is taken as not above zero. */
  predicate LengthAboveZero(v: Option<Json>) {
    v.Some? && ((v.value.JInt? && v.value.num > 0) || v.value == JBool(true))
  }

  /** `sources.length > 0` holds and `sources.forEach` then throws: a
      non-empty string, an array with a `null` element (read as `source.link`),
      or an object whose `length` is above zero (it has no `forEach`). */
  predicate ListingThrows(sources: Json) {
    || (sources.JStr? && sources.str != [])
    || (sources.JArr? && !NoNull(sources.elems))
    || (sources.JObj? && LengthAboveZero(Get(sources, "length")))
  }

  /** `handleStreamEnd(isError, query, researchId, sources, …)`, without the
      refresh from the result page and the DOM work. A run that failed shows
      nothing and saves nothing; otherwise the sources are listed (or the "no
      sources" note shown) and the run is saved exactly when it has a
      non-empty research id and query. */
  function StreamEnd(isError: bool, query: string, researchId: Option<string>, sources: Json, escape: string -> string, now: int)
    : (r: Ending)
    ensures isError ==> r == Ending(None, None)
    ensures r.ListingThrew? <==> !isError && ListingThrows(sources)
    ensures r.Ending? && !isError ==> r.sourcesHtml.Some?
    ensures r.Ending? ==> (r.saved.Some? <==> !isError && researchId.Some? && researchId.value != [] && query != [])
    ensures r.Ending? && r.saved.Some? ==> r.saved.value == HistoryEntry(researchId.value, query, now)
    ensures r.Ending? && !isError && !(sources.JArr? && sources.elems != []) ==> r.sourcesHtml == Some(NoSourcesParagraph)
    ensures r.Ending? && !isError && sources.JArr? && sources.elems != [] ==>
      r.sourcesHtml == Some(SourcesDetails(|sources.elems|, SourceListItems(sources.elems, escape)))
  {
    if isError then Ending(None, None)
    else if ListingThrows(sources) then ListingThrew
    else
      var html := if sources.JArr? && |sources.elems| > 0
                  then SourcesDetails(|sources.elems|, SourceListItems(sources.elems, escape))
                  else NoSourcesParagraph;
      var saved := if researchId.Some? && researchId.value != [] && query != []
                   then Some(HistoryEntry(researchId.value, query, now)) else None;
      Ending(Some(html), saved)
  }

  /** A source the server reported, listed as entry `i`, links to its
      escaped link (or `#` without one) and shows its escaped title, or the
      link when it has no title. */
  lemma ServerSourcesRender(item: SearchItem, i: nat, escape: string -> string)
    ensures var href := if Filled(item.link) then escape(item.link.value) else "#";
      SourceEntry(i, Pipeline.ItemJson(item), escape)
        == "<li id=\"source-" + NatToString(i + 1) + "\"><a href=\"" + href + "\" target=\"_blank\">"
           + (if Filled(item.title) then escape(item.title.value) else href) + "</a></li>"
  {
    SourceFields(item);
  }

  // ---------------------------------------------------------------------------
  // The history list
  // ---------------------------------------------------------------------------

  function Stamp(e: HistoryEntry): int {
    e.timestamp
  }

  /** `getAllResearchesSorted`: the records newest first. */
  function NewestFirst(entries: seq<HistoryEntry>): seq<HistoryEntry> {
    SortDesc(entries, Stamp)
  }

  /** The history is every record once, newest first, with records saved at
      the same time kept in the order the store returned them. */
  lemma HistoryNewestFirst(entries: seq<HistoryEntry>, t: int)
    ensures var r := NewestFirst(entries);
      && multiset(r) == multiset(entries)
      && (forall i, j :: 0 <= i < j < |r| ==> r[i].timestamp >= r[j].timestamp)
      && WithKey(r, Stamp, t) == WithKey(entries, Stamp, t)
  {
    SortDescSorted(entries, Stamp);
    SortDescStable(entries, Stamp, t);
  }
}

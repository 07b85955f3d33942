/** Building the request for the model provider (src/llm.js): the guard
    clauses, the numbered source list, the prompt assembled from fixed parts in
    a fixed order, the request body, and the error messages. `summarizeContentStream`
    throws its messages (and hands back a stream); `summarizeContent`, the
    one-shot variant, returns them as its answer text. The HTTP exchange itself
    is an input: what the provider replied, or how the request failed. */
module Llm {
  import opened Wrappers
  import opened Text
  import opened Json
  import opened Scoring

  // ---------------------------------------------------------------------------
  // The guards
  // ---------------------------------------------------------------------------

  const MissingKey := "OpenRouter API key not configured."
  const MissingModel := "OpenRouter model name not configured."
  const NoContent := "No content available to answer the query."

  /** The message of the first guard that fails, in the source's order: the
      API key, then the model name, then the text, which must hold something
      other than whitespace. Missing sources do not stop the request. */
  function Guard(apiKey: Option<string>, modelName: Option<string>, text: string): (r: Option<string>)
    ensures r.None? <==> Filled(apiKey) && Filled(modelName) && !AllSpace(text)
    ensures !Filled(apiKey) ==> r == Some(MissingKey)
    ensures Filled(apiKey) && !Filled(modelName) ==> r == Some(MissingModel)
    ensures Filled(apiKey) && Filled(modelName) && AllSpace(text) ==> r == Some(NoContent)
  {
    AllSpaceTrim(text);
    if !Filled(apiKey) then Some(MissingKey)
    else if !Filled(modelName) then Some(MissingModel)
    else if Trim(text) == [] then Some(NoContent)
    else None
  }

  // ---------------------------------------------------------------------------
  // The source list
  // ---------------------------------------------------------------------------

  /** A field interpolated into a template string: an absent one reads
      `undefined`. */
  function Interpolated(x: Option<string>): string {
    if x.Some? then x.value else "undefined"
  }

  function TitleLine(number: nat, src: SearchItem): string {
    NatToString(number) + ". Title: " + Interpolated(src.title)
  }

  function UrlLine(src: SearchItem): string {
    "   URL: " + Interpolated(src.link)
  }

  /** The entries of the list, numbered from `first`. */
  function Entries(sources: seq<SearchItem>, first: nat): (es: seq<string>)
    ensures |es| == |sources|
  {
    if sources == [] then []
    else [TitleLine(first, sources[0]) + "\n" + UrlLine(sources[0])] + Entries(sources[1..], first + 1)
  }

  const NoSources := "No specific sources provided."

  /** `sources.map((src, index) => ...).join('\n')`, or the placeholder when
      there are no sources. */
  function SourceListText(sources: seq<SearchItem>): string {
    if sources == [] then NoSources else Join(Entries(sources, 1), "\n")
  }

  /** The lines of the list: a title line and a URL line per source. */
  function EntryLines(sources: seq<SearchItem>, first: nat): (ls: seq<string>)
    ensures |ls| == 2 * |sources|
  {
    if sources == [] then []
    else [TitleLine(first, sources[0]), UrlLine(sources[0])] + EntryLines(sources[1..], first + 1)
  }

  lemma {:induction false} EntryLinesAt(sources: seq<SearchItem>, first: nat, i: nat)
    requires i < |sources|
    ensures EntryLines(sources, first)[2 * i] == TitleLine(first + i, sources[i])
    ensures EntryLines(sources, first)[2 * i + 1] == UrlLine(sources[i])
  {
    if i > 0 {
      EntryLinesAt(sources[1..], first + 1, i - 1);
    }
  }

  /** With titles and links on one line each, no line of the list holds a
      line break. */
  lemma {:induction false} EntryLinesSingle(sources: seq<SearchItem>, first: nat)
    requires forall i :: 0 <= i < |sources| ==> '\n' !in Interpolated(sources[i].title) && '\n' !in Interpolated(sources[i].link)
    ensures forall k :: 0 <= k < |EntryLines(sources, first)| ==> '\n' !in EntryLines(sources, first)[k]
  {
    if sources != [] {
      EntryLinesSingle(sources[1..], first + 1);
      assert '\n' !in TitleLine(first, sources[0]);
      assert '\n' !in UrlLine(sources[0]);
    }
  }

  lemma Regroup(t: string, u: string, j: string)
    ensures t + "\n" + u + "\n" + j + "\n" == (t + "\n" + u + "\n") + (j + "\n")
  {
  }

  lemma {:induction false} EntriesAsLines(sources: seq<SearchItem>, first: nat)
    requires sources != []
    ensures Join(Entries(sources, first), "\n") + "\n" == Unlines(EntryLines(sources, first))
  {
    var t, u := TitleLine(first, sources[0]), UrlLine(sources[0]);
    UnlinesCons(t, [u]);
    UnlinesCons(u, []);
    assert [t] + [u] == [t, u];
    assert Unlines([t, u]) == t + "\n" + u + "\n";
    if |sources| == 1 {
      assert Entries(sources, first) == [t + "\n" + u];
      assert EntryLines(sources, first) == [t, u] + [];
    } else {
      var es := Entries(sources, first);
      var rest := Entries(sources[1..], first + 1);
      var j := Join(rest, "\n");
      assert es[0] == t + "\n" + u && es[1..] == rest && |es| >= 2;
      assert Join(es, "\n") == t + "\n" + u + "\n" + j;
      EntriesAsLines(sources[1..], first + 1);
      assert EntryLines(sources, first) == [t, u] + EntryLines(sources[1..], first + 1);
      UnlinesAppend([t, u], EntryLines(sources[1..], first + 1));
      Regroup(t, u, j);
    }
  }

  /** The list reads back line by line: when no title or link holds a line
      break, the list splits into exactly two lines per source, the `i`-th title
      line carrying the number `i + 1`, the number the answer's `#source-N`
      citations refer to. */
  lemma SourceListLines(sources: seq<SearchItem>)
    requires sources != []
    requires forall i :: 0 <= i < |sources| ==> '\n' !in Interpolated(sources[i].title) && '\n' !in Interpolated(sources[i].link)
    ensures var ls := CompleteLines(SourceListText(sources) + "\n");
      && |ls| == 2 * |sources|
      && forall i :: 0 <= i < |sources| ==> ls[2 * i] == TitleLine(i + 1, sources[i]) && ls[2 * i + 1] == UrlLine(sources[i])
  {
    var ls := EntryLines(sources, 1);
    forall i | 0 <= i < |sources|
      ensures ls[2 * i] == TitleLine(i + 1, sources[i]) && ls[2 * i + 1] == UrlLine(sources[i])
    {
      EntryLinesAt(sources, 1, i);
    }
    SourceListSplits(sources);
  }

  lemma SourceListSplits(sources: seq<SearchItem>)
    requires sources != []
    requires forall i :: 0 <= i < |sources| ==> '\n' !in Interpolated(sources[i].title) && '\n' !in Interpolated(sources[i].link)
    ensures CompleteLines(SourceListText(sources) + "\n") == EntryLines(sources, 1)
  {
    var ls := EntryLines(sources, 1);
    var text := Join(Entries(sources, 1), "\n") + "\n";
    assert SourceListText(sources) + "\n" == text;
    EntriesAsLines(sources, 1);
    EntryLinesSingle(sources, 1);
    LinesOfUnlines(ls, "");
    assert text == Unlines(ls) + "";
  }

  // ---------------------------------------------------------------------------
  // The prompt
  // ---------------------------------------------------------------------------

  /** The streaming request and the one-shot request use different wording. */
  datatype Variant = Streaming | OneShot

  /** The opening sentence of the streaming prompt (src/llm.js:38). */
  const StreamIntro: string :=
    "You are an AI research assistant. Your primary task is to answer the user's query based mainly on the provided text content extracted from the sources."

  /** The instruction block of the streaming prompt (src/llm.js:47-56). */
  const StreamInstructions: string :=
    "\n"
    + "**Instructions:**\n"
    + "1.  Carefully read the **User Query** and the **Extracted Text Content**.\n"
    + "2.  Formulate a **detailed and comprehensive** answer to the **User Query**, using *only* information present in the **Extracted Text Content**.\n"
    + "3.  **Structure, Length, and Tone:** Write the answer in a formal, objective, and academic tone suitable for a research paper. Structure the answer into **3 to 4 distinct paragraphs**. The total length of the main answer (these 3-4 paragraphs, excluding the TL;DR and Sources list) **MUST be between 500 and 700 words**. Use HTML '<p>' tags to separate the paragraphs clearly. Do **NOT** refer to the process of using the provided text (e.g., avoid phrases like \"Based on the provided text,\" \"The sources indicate,\" etc.). Present the information directly as findings.\n"
    + "4.  **Citations:** Cite the information used in your answer by referencing the sources. Incorporate citations *within* the answer text where appropriate using HTML superscript tags containing HTML anchor tags. The anchor tag's 'href' attribute must point to a corresponding source ID in the final list (e.g., '#source-1', '#source-2'). The visible text of the anchor tag must be the superscript number (e.g., 1, 2).\n"
    + "5.  **Source List:** After the answer, include an HTML ordered list ('<ol>') titled \"**Sources:**\". Each list item ('<li>') MUST have an 'id' attribute matching the anchor used in the superscript links (e.g., id=\"source-1\", id=\"source-2\"). Inside each list item, provide **only the source title** as the visible text of the HTML anchor tag ('<a>') linking to the source URL, with the 'target=\"_blank\"' attribute. Do **NOT** include the prefix \"Title:\" before the source title.\n"
    + "6.  **TL;DR Summary:** After the main answer (the 3 paragraphs) and *before* the \"**Sources:**\" list, add a concise 1-2 sentence summary of the main answer, prefixed with \"**To summarize:** \".\n"
    + "7.  **Formatting & Constraints:** Ensure the final output (answer, TL;DR, and source list) is well-structured, valid HTML, and easy to read. Do NOT use Markdown formatting for links. Do NOT include information not found in the provided text content.\n"

  /** The heading of the streaming prompt's source block, with its trailing space (src/llm.js:65-67). */
  const StreamSourcesHeading: string :=
    "\n"
    + "**Sources Used (for context and citation numbering, format output as per instruction #5 and #6):** \n"
    + "---\n"

  /** The closing line of the streaming prompt, with its trailing space (src/llm.js:72-74). */
  const StreamOutro: string :=
    "\n"
    + "**Generated Answer, TLDR, and Sources (HTML format as requested):** \n"

  /** The opening sentence of the one-shot prompt (src/llm.js:155). */
  const AnswerIntro: string :=
    "You are an AI research assistant. Your primary task is to answer the user's query based *only* on the provided text content extracted from the sources."

  /** The instruction block of the one-shot prompt (src/llm.js:164-173). */
  const AnswerInstructions: string :=
    "\n"
    + "**Instructions:**\n"
    + "1.  Carefully read the **User Query** and the **Extracted Text Content**.\n"
    + "2.  Formulate a comprehensive answer to the **User Query**, using *only* information present in the **Extracted Text Content**.\n"
    + "3.  **Structure and Tone:** Write the answer in a formal, objective, and academic tone suitable for a research paper. Structure the answer into **exactly 3 distinct paragraphs**, using HTML '<p>' tags to separate them clearly. Do **NOT** refer to the process of using the provided text (e.g., avoid phrases like \"Based on the provided text,\" \"The sources indicate,\" etc.). Present the information directly as findings.\n"
    + "4.  **Citations:** Cite the information used in your answer by referencing the sources. Incorporate citations *within* the answer text where appropriate using HTML superscript tags containing HTML anchor tags. The anchor tag's 'href' attribute must point to a corresponding source ID in the final list (e.g., '#source-1', '#source-2'). The visible text of the anchor tag must be the superscript number (e.g., 1, 2).\n"
    + "5.  **Source List:** After the answer, include an HTML ordered list ('<ol>') titled \"**Sources:**\". Each list item ('<li>') MUST have an 'id' attribute matching the anchor used in the superscript links (e.g., id=\"source-1\", id=\"source-2\"). Inside each list item, provide **only the source title** as the visible text of the HTML anchor tag ('<a>') linking to the source URL, with the 'target=\"_blank\"' attribute. Do **NOT** include the prefix \"Title:\" before the source title.\n"
    + "6.  **TL;DR Summary:** After the main answer (the 3 paragraphs) and *before* the \"**Sources:**\" list, add a concise 1-2 sentence summary of the main answer, prefixed with \"**To summarize:** \".\n"
    + "7.  **Formatting & Constraints:** Ensure the final output (answer, TL;DR, and source list) is well-structured, valid HTML, and easy to read. Do NOT use Markdown formatting for links. Do NOT include information not found in the provided text content.\n"

  /** The heading of the one-shot prompt's source block (src/llm.js:182-184). */
  const AnswerSourcesHeading: string :=
    "\n"
    + "**Sources Used (for context and citation numbering, format output as per instruction #5 and #6):**\n"
    + "---\n"

  /** The closing line of the one-shot prompt (src/llm.js:189-191). */
  const AnswerOutro: string :=
    "\n"
    + "**Generated Answer, TLDR, and Sources (HTML format as requested):**\n"

  /** The four passages in which the two prompts differ. */
  datatype Wording = Wording(intro: string, instructions: string, sourcesHeading: string, outro: string)

  function WordingOf(v: Variant): Wording {
    if v == Streaming then Wording(StreamIntro, StreamInstructions, StreamSourcesHeading, StreamOutro)
    else Wording(AnswerIntro, AnswerInstructions, AnswerSourcesHeading, AnswerOutro)
  }

  const QueryHeading := "\n**User Query:**\n---\n"
  const ContentHeading := "\n**Extracted Text Content:**\n---\n"
  const Closing := "\n---\n"

  function QueryBlock(query: string): string {
    QueryHeading + query + Closing
  }

  function ContentBlock(text: string): string {
    ContentHeading + text + Closing
  }

  function SourcesBlock(w: Wording, sourceListText: string): string {
    w.sourcesHeading + sourceListText + Closing
  }

  /** The prompt: the intro, the query block, the instructions, the content
      block, the source block and the outro, in this order. */
  function Prompt(w: Wording, query: string, text: string, sources: seq<SearchItem>): string {
    Assemble(w, query, text, SourceListText(sources))
  }

  function Assemble(w: Wording, query: string, text: string, sourceListText: string): string {
    w.intro + QueryBlock(query) + w.instructions + ContentBlock(text) + SourcesBlock(w, sourceListText) + w.outro
  }

  /** Where a block `h + m + c` placed between `x` and `y` puts its middle. */
  lemma Framed(x: string, h: string, m: string, c: string, y: string)
    ensures var p := x + (h + m + c) + y;
      var k := |x| + |h|;
      && k + |m| + |c| <= |p|
      && p[..|x|] == x
      && p[k..k + |m|] == m && p[k + |m|..k + |m| + |c|] == c
  {
    var p := x + (h + m + c) + y;
    var k := |x| + |h|;
    assert p == (x + h) + m + (c + y);
    assert p[k..k + |m|] == m;
    assert p[k + |m|..k + |m| + |c|] == c;
  }

  /** The query and the extracted text appear verbatim in the prompt, each
      right after its heading's `---` line and followed by another, and the
      prompt begins with the intro. */
  lemma PromptEmbeds(w: Wording, query: string, text: string, sourceListText: string)
    ensures var p := Assemble(w, query, text, sourceListText);
      var q := |w.intro| + |QueryHeading|;
      var t := q + |query| + |Closing| + |w.instructions| + |ContentHeading|;
      && t + |text| + |Closing| <= |p|
      && p[..|w.intro|] == w.intro
      && p[q..q + |query|] == query && p[q + |query|..q + |query| + |Closing|] == Closing
      && p[t..t + |text|] == text && p[t + |text|..t + |text| + |Closing|] == Closing
  {
    var rest := w.instructions + ContentBlock(text) + SourcesBlock(w, sourceListText) + w.outro;
    QueryEmbedded(w, query, text, sourceListText, rest);
    var before := w.intro + QueryBlock(query) + w.instructions;
    var after := SourcesBlock(w, sourceListText) + w.outro;
    TextEmbedded(w, query, text, sourceListText, before, after);
  }

  lemma QueryEmbedded(w: Wording, query: string, text: string, sourceListText: string, rest: string)
    requires rest == w.instructions + ContentBlock(text) + SourcesBlock(w, sourceListText) + w.outro
    ensures var p := Assemble(w, query, text, sourceListText);
      var q := |w.intro| + |QueryHeading|;
      && q + |query| + |Closing| <= |p|
      && p[..|w.intro|] == w.intro
      && p[q..q + |query|] == query && p[q + |query|..q + |query| + |Closing|] == Closing
  {
    assert Assemble(w, query, text, sourceListText) == w.intro + QueryBlock(query) + rest;
    Framed(w.intro, QueryHeading, query, Closing, rest);
  }

  lemma TextEmbedded(w: Wording, query: string, text: string, sourceListText: string, before: string, after: string)
    requires before == w.intro + QueryBlock(query) + w.instructions
    requires after == SourcesBlock(w, sourceListText) + w.outro
    ensures var p := Assemble(w, query, text, sourceListText);
      var t := |before| + |ContentHeading|;
      && t + |text| + |Closing| <= |p|
      && p[t..t + |text|] == text && p[t + |text|..t + |text| + |Closing|] == Closing
  {
    assert Assemble(w, query, text, sourceListText) == before + ContentBlock(text) + after;
    Framed(before, ContentHeading, text, Closing, after);
  }

  // ---------------------------------------------------------------------------
  // The request body
  // ---------------------------------------------------------------------------

  /** The JSON body posted to the chat-completions endpoint; only the
      streaming variant asks for a stream. */
  function RequestBody(v: Variant, modelName: string, prompt: string): (body: Json)
    ensures Get(body, "model") == Some(JStr(modelName))
    ensures Get(body, "messages") == Some(JArr([JObj([("role", JStr("user")), ("content", JStr(prompt))])]))
    ensures v == Streaming <==> Get(body, "stream") == Some(JBool(true))
    ensures v == OneShot ==> Get(body, "stream") == None
  {
    var message := JObj([("role", JStr("user")), ("content", JStr(prompt))]);
    var fields := [("model", JStr(modelName)), ("messages", JArr([message]))];
    assert fields[..1] == [("model", JStr(modelName))];
    if v == Streaming then
      var all := fields + [("stream", JBool(true))];
      assert all[..2] == fields;
      assert Lookup(fields, "model") == Some(JStr(modelName));
      JObj(all)
    else JObj(fields)
  }

  // ---------------------------------------------------------------------------
  // Failures of the request
  // ---------------------------------------------------------------------------

  /** How the POST failed: the provider answered with an error status (and a
      body), no response arrived, or the request could not be set up. */
  datatype RequestFailure =
    | Responded(status: nat, data: Json)
    | NoResponse
    | NotSent(message: string)

  const StreamFailureBase := "Error: Failed to get stream from the AI."
  const AnswerFailureBase := "Error: Failed to get answer from the AI."
  const NoResponseSuffix := " No response received from the server."

  /** The message `summarizeContentStream` throws: the base text and exactly
      one suffix for the kind of failure. */
  function StreamFailureMessage(f: RequestFailure): string {
    StreamFailureBase
    + match f
      case Responded(status, _) => " Status: " + NatToString(status) + ". Check server logs for details."
      case NoResponse => NoResponseSuffix
      case NotSent(m) => " Request setup error: " + m
  }

  /** The stream failure message tells the kind of failure apart, and the
      status or the setup message is read back from it unchanged. */
  lemma StreamFailureDistinguishes(f1: RequestFailure, f2: RequestFailure)
    requires StreamFailureMessage(f1) == StreamFailureMessage(f2)
    ensures f1.Responded? <==> f2.Responded?
    ensures f1.NoResponse? <==> f2.NoResponse?
    ensures f1.Responded? && f2.Responded? ==> f1.status == f2.status
    ensures f1.NotSent? && f2.NotSent? ==> f1.message == f2.message
  {
    var m1, m2 := StreamFailureMessage(f1), StreamFailureMessage(f2);
    var b := |StreamFailureBase|;
    assert m1[b + 1] == (if f1.Responded? then 'S' else if f1.NoResponse? then 'N' else 'R');
    assert m2[b + 1] == (if f2.Responded? then 'S' else if f2.NoResponse? then 'N' else 'R');
    if f1.Responded? && f2.Responded? {
      var tail := ". Check server logs for details.";
      var d1, d2 := NatToString(f1.status), NatToString(f2.status);
      assert m1 == StreamFailureBase + " Status: " + d1 + tail;
      assert m2 == StreamFailureBase + " Status: " + d2 + tail;
      assert |d1| == |d2|;
      assert d1 == m1[b + 9..b + 9 + |d1|];
      assert d2 == m2[b + 9..b + 9 + |d2|];
      NatToStringInjective(f1.status, f2.status);
    }
    if f1.NotSent? && f2.NotSent? {
      assert f1.message == m1[b + 22..];
      assert f2.message == m2[b + 22..];
    }
  }

  // ---------------------------------------------------------------------------
  // `summarizeContentStream`
  // ---------------------------------------------------------------------------

  /** What opening the stream gives: the body that was posted when the
      provider accepted it, the failure message otherwise. `failure` is how the
      POST failed, `None` when it succeeded; it is not consulted when a guard
      fails, because no request is made then. */
  function OpenStream(query: string, text: string, sources: seq<SearchItem>, apiKey: Option<string>,
                      modelName: Option<string>, failure: Option<RequestFailure>): (r: Result<Json, string>)
    ensures Guard(apiKey, modelName, text).Some? ==> r == Err(Guard(apiKey, modelName, text).value)
    ensures Guard(apiKey, modelName, text).None? && failure.Some? ==> r == Err(StreamFailureMessage(failure.value))
    ensures r.Ok? <==> Guard(apiKey, modelName, text).None? && failure.None?
    ensures r.Ok? ==> r.value == RequestBody(Streaming, modelName.value, Prompt(WordingOf(Streaming), query, text, sources))
  {
    var guard := Guard(apiKey, modelName, text);
    if guard.Some? then Err(guard.value)
    else if failure.Some? then Err(StreamFailureMessage(failure.value))
    else Ok(RequestBody(Streaming, modelName.value, Prompt(WordingOf(Streaming), query, text, sources)))
  }

  // ---------------------------------------------------------------------------
  // `summarizeContent`
  // ---------------------------------------------------------------------------

  /** The provider's reply to the one-shot request: no `choices` (or an empty
      array), or the first choice's content, read and trimmed; reading it
      throws when the choice has no message, with the given message. */
  datatype Reply = NoChoices | FirstChoice(content: Result<string, string>)

  const InvalidStructure := "Error: Failed to get a valid answer from the AI. Invalid response structure."

  function AnswerFailureMessage(f: RequestFailure): string {
    AnswerFailureBase
    + match f
      case Responded(status, data) => " Status: " + NatToString(status) + ". Message: " + Stringify(data)
      case NoResponse => NoResponseSuffix
      case NotSent(m) => " Request setup error: " + m
  }

  /** `summarizeContent`: never throws; its guard messages, except the one
      about the text, carry an `Error: ` prefix; a readable answer is returned
      trimmed. */
  function Summarize(query: string, text: string, sources: seq<SearchItem>, apiKey: Option<string>,
                     modelName: Option<string>, outcome: Result<Reply, RequestFailure>): (answer: string)
    ensures !Filled(apiKey) ==> answer == "Error: " + MissingKey
    ensures Filled(apiKey) && !Filled(modelName) ==> answer == "Error: " + MissingModel
    ensures Filled(apiKey) && Filled(modelName) && AllSpace(text) ==> answer == NoContent
    ensures Guard(apiKey, modelName, text).None? ==>
      match outcome
      case Ok(FirstChoice(Ok(content))) => answer == Trim(content)
      case Ok(FirstChoice(Err(m))) => answer == AnswerFailureMessage(NotSent(m))
      case Ok(NoChoices) => answer == InvalidStructure
      case Err(f) => answer == AnswerFailureMessage(f)
  {
    var guard := Guard(apiKey, modelName, text);
    if guard.Some? then
      if guard.value == NoContent then NoContent else "Error: " + guard.value
    else
      match outcome
      case Err(f) => AnswerFailureMessage(f)
      case Ok(NoChoices) => InvalidStructure
      case Ok(FirstChoice(Err(m))) => AnswerFailureMessage(NotSent(m))
      case Ok(FirstChoice(Ok(content))) => Trim(content)
  }
}

/** The decoder the server runs over the model provider's streamed answer
    (server.js:427-466): every chunk is appended to a buffer, each complete line
    is taken off the front and trimmed, `data: ` lines other than `[DONE]` are
    parsed, a payload carrying `error` aborts the stream, and every non-empty
    content delta is appended to the answer and forwarded to the browser at
    once. */
module Upstream {
  import opened Wrappers
  import opened Text
  import opened Json
  import opened Sse

  /** What the server makes of one `data: ` payload: `JSON.parse` and the
      optional-chaining field reads are not modelled, their outcome is. */
  datatype Payload =
    | Unparseable                                  // the parse or a field access threw
    | ProviderError(message: Option<string>)       // `dataObj.error` was truthy
    | Chunk(delta: string, usage: Option<Json>)    // the delta content ('' if absent) and a truthy `usage`

  /** The decoder's variables: the answer so far, the last usage report, and
      the rejection message once the stream has been aborted. */
  datatype Progress = Progress(answer: string, usage: Option<Json>, failure: Option<string>)

  const Start := Progress("", None, None)

  /** `LLM Error: ${dataObj.error.message || 'Unknown error'}`. */
  function ProviderErrorText(message: Option<string>): string {
    "LLM Error: " + (if message.Some? && message.value != [] then message.value else "Unknown error")
  }

  /** One complete line: what it forwards to the browser and the decoder's
      variables afterwards. Nothing is done once the stream has been aborted. */
  function ProviderLine(rawLine: string, p: Progress, decode: string -> Payload): (r: Scanned<string, Progress>)
    ensures p.failure.Some? ==> r == Scanned([], p)
    ensures r.state.answer == p.answer + Concat(r.out)
    ensures |r.out| <= 1 && (r.out != [] ==> r.out[0] != [])
    ensures r.state.failure.Some? ==> r.out == []
  {
    if p.failure.Some? then Scanned([], p)
    else
      var line := Trim(rawLine);
      if !StartsWith(line, "data: ") then Scanned([], p)
      else
        var content := line[6..];
        if content == "[DONE]" then Scanned([], p)
        else
          match decode(content)
          case Unparseable => Scanned([], p)
          case ProviderError(m) => Scanned([], p.(failure := Some(ProviderErrorText(m))))
          case Chunk(delta, usage) =>
            var next := Progress(p.answer + delta, if usage.Some? then usage else p.usage, None);
            if delta == [] then
              assert p.answer + delta == p.answer;
              Scanned([], next)
            else
              assert Concat([delta]) == delta;
              Scanned([delta], next)
  }

  function Step(decode: string -> Payload): (string, Progress) -> Scanned<string, Progress> {
    (line, p) => ProviderLine(line, p, decode)
  }

  /** What the decoder's methods rely on about the line step: it does nothing
      once the stream is aborted, forwards at most one non-empty delta, grows
      the answer by exactly what it forwards, and forwards nothing when it
      aborts. */
  ghost predicate LineHandler(step: (string, Progress) -> Scanned<string, Progress>) {
    forall line: string, p: Progress ::
      && (p.failure.Some? ==> step(line, p) == Scanned([], p))
      && step(line, p).state.answer == p.answer + Concat(step(line, p).out)
      && |step(line, p).out| <= 1
      && (step(line, p).state.failure.Some? ==> step(line, p).out == [])
  }

  lemma StepIsLineHandler(decode: string -> Payload)
    ensures LineHandler(Step(decode))
  {
  }

  /** The answer grows by exactly the forwarded deltas, in order: what the
      browser is sent and what is saved agree. */
  lemma {:induction false} AnswerIsForwarded(lines: seq<string>, p: Progress, step: (string, Progress) -> Scanned<string, Progress>)
    requires LineHandler(step)
    ensures Scan(lines, p, step).state.answer == p.answer + Concat(Scan(lines, p, step).out)
  {
    if lines != [] {
      var first := step(lines[0], p);
      AnswerIsForwarded(lines[1..], first.state, step);
      ConcatOfConcat(first.out, Scan(lines[1..], first.state, step).out);
    }
  }

  /** After the abort nothing more is forwarded and nothing changes. */
  lemma {:induction false} AbortedIgnoresRest(lines: seq<string>, p: Progress, step: (string, Progress) -> Scanned<string, Progress>)
    requires LineHandler(step) && p.failure.Some?
    ensures Scan(lines, p, step) == Scanned([], p)
  {
    if lines != [] {
      AbortedIgnoresRest(lines[1..], p, step);
    }
  }

  /** Only `data: ` lines can change anything: other lines, the `[DONE]`
      marker and payloads that cannot be parsed are skipped. */
  lemma SkippedLines(rawLine: string, p: Progress, decode: string -> Payload)
    requires !StartsWith(Trim(rawLine), "data: ")
          || Trim(rawLine)[6..] == "[DONE]"
          || decode(Trim(rawLine)[6..]) == Unparseable
    ensures ProviderLine(rawLine, p, decode) == Scanned([], p)
  {
  }

  /** A payload carrying an error aborts with its message, whatever came
      before it. */
  lemma ErrorAborts(rawLine: string, p: Progress, decode: string -> Payload, message: Option<string>)
    requires p.failure.None?
    requires StartsWith(Trim(rawLine), "data: ") && decode(Trim(rawLine)[6..]) == ProviderError(message)
    requires Trim(rawLine)[6..] != "[DONE]"
    ensures ProviderLine(rawLine, p, decode) == Scanned([], p.(failure := Some(ProviderErrorText(message))))
  {
  }

  /** The frames a run of forwarded deltas puts on the response. */
  function MessageFrames(deltas: seq<string>): (ws: seq<Write>)
    ensures |ws| == |deltas|
  {
    if deltas == [] then [] else [Sent(Frame("message", JStr(deltas[0])))] + MessageFrames(deltas[1..])
  }

  lemma {:induction false} MessageFramesAppend(a: seq<string>, b: seq<string>)
    ensures MessageFrames(a + b) == MessageFrames(a) + MessageFrames(b)
  {
    if a != [] {
      assert (a + b)[1..] == a[1..] + b;
      MessageFramesAppend(a[1..], b);
    } else {
      assert a + b == b;
    }
  }

  /** What the browser receives of the deltas `deltas`: nothing once the
      response has ended. */
  function Delivered(ended: bool, deltas: seq<string>): (ws: seq<Write>)
    ensures ended ==> ws == []
    ensures !ended ==> |ws| == |deltas|
  {
    if ended then [] else MessageFrames(deltas)
  }

  /** Sending the frame of one more forwarded delta, if the line produced one. */
  lemma SentDelta(log0: seq<Write>, ended: bool, forwarded: seq<string>, out: seq<string>, before: seq<Write>, after: seq<Write>)
    requires |out| <= 1 && before == log0 + Delivered(ended, forwarded)
    requires after == if ended || out == [] then before else before + [Sent(Frame("message", JStr(out[0])))]
    ensures after == log0 + Delivered(ended, forwarded + out)
  {
    MessageFramesAppend(forwarded, out);
    if out == [] {
      assert forwarded + out == forwarded;
    } else if !ended {
      assert out == [out[0]];
    }
  }

  /** The closure state of one attempt's `data` handler; `step` is the line
      handler `ProviderLine` of the attempt's payload decoder. */
  class StreamDecoder {
    var buffer: string
    var fullAnswer: string
    var usageData: Option<Json>
    var streamError: Option<string>
    const step: (string, Progress) -> Scanned<string, Progress>

    function Current(): Progress
      reads this
    {
      Progress(fullAnswer, usageData, streamError)
    }

    ghost predicate Valid()
      reads this
    {
      LineHandler(step)
    }

    /** A fresh attempt: the buffer and the answer start empty. */
    constructor (decode: string -> Payload)
      ensures buffer == "" && Current() == Start && step == Step(decode) && Valid()
    {
      buffer := "";
      fullAnswer := "";
      usageData := None;
      streamError := None;
      step := Step(decode);
      StepIsLineHandler(decode);
    }

    /** `llmStream.on('error', …)`: the stream failed underneath. */
    method OnError(message: string)
      modifies this
      ensures streamError == Some(message)
      ensures buffer == old(buffer) && fullAnswer == old(fullAnswer) && usageData == old(usageData)
    {
      streamError := Some(message);
    }

    /** `llmStream.on('data', …)`: the complete lines of the buffer are
        decoded in order, forwarding each delta as a `message` frame, and the
        unterminated rest is kept; once the stream is aborted chunks are
        ignored. */
    method OnData(chunk: string, res: Response) returns (forwarded: seq<string>)
      requires Valid()
      modifies this, res
      ensures old(streamError).Some? ==>
        forwarded == [] && Current() == old(Current()) && buffer == old(buffer)
      ensures old(streamError).None? ==>
        var r := Scan(CompleteLines(old(buffer) + chunk), old(Current()), step);
        forwarded == r.out && Current() == r.state
      ensures old(streamError).None? && streamError.None? ==> buffer == Remainder(old(buffer) + chunk)
      ensures res.ended == old(res.ended)
      ensures res.log == old(res.log) + Delivered(old(res.ended), forwarded)
    {
      forwarded := [];
      if streamError.Some? {
        return;
      }
      var buf, p := buffer + chunk, Current();
      ghost var total := Scan(CompleteLines(buf), p, step);
      while IndexOfChar(buf, '\n') != -1
        invariant p.failure.None?
        invariant forwarded + Scan(CompleteLines(buf), p, step).out == total.out
        invariant Scan(CompleteLines(buf), p, step).state == total.state
        invariant Remainder(buf) == Remainder(old(buffer) + chunk)
        invariant res.ended == old(res.ended)
        invariant res.log == old(res.log) + Delivered(old(res.ended), forwarded)
        decreases |buf|
      {
        var lineEnd := IndexOfChar(buf, '\n');
        var r := step(buf[..lineEnd], p);
        ScanFirstLine(buf, lineEnd, p, step);
        ghost var logBefore := res.log;
        if r.out != [] {
          res.SendSseMessage(JStr(r.out[0]), "message");
        }
        SentDelta(old(res.log), res.ended, forwarded, r.out, logBefore, res.log);
        ghost var rest := Scan(CompleteLines(buf[lineEnd + 1..]), r.state, step);
        AppendAssoc(forwarded, r.out, rest.out);
        forwarded, buf, p := forwarded + r.out, buf[lineEnd + 1..], r.state;
        if p.failure.Some? {
          AbortedIgnoresRest(CompleteLines(buf), p, step);
          break;
        }
      }
      buffer, fullAnswer, usageData, streamError := buf, p.answer, p.usage, p.failure;
    }
  }
}

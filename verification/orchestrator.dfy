/** `processLlmStreamWithRetry` (server.js:405-534): up to three attempts at
    streaming the answer. Each attempt opens the provider stream, decodes it
    with a fresh `StreamDecoder`, and either finishes (the result is saved,
    its link and `[DONE]` are sent and the response is ended) or is rejected:
    the setup throws, the provider reports an error, the stream fails, or the
    result cannot be saved. A rejected attempt is retried; after the third the
    browser is sent one error frame and the response is ended.

    The provider's behaviour in each attempt is an input (`Attempt`); the wait
    between attempts is not modelled. */
module Orchestrator {
  import opened Wrappers
  import opened Text
  import opened Json
  import opened Sse
  import opened Scoring
  import opened Config
  import opened Llm
  import opened Upstream

  // ---------------------------------------------------------------------------
  // Inputs
  // ---------------------------------------------------------------------------

  /** The arguments every attempt shares. */
  datatype Job = Job(query: string, combinedText: string, sources: seq<SearchItem>,
                     apiKey: Option<string>, model: ModelConfig, resultId: string)

  /** How the provider stream ends: the `end` event, after which writing the
      result file fails with `saveError` or succeeds (`None`), or the `error`
      event with its message. */
  datatype Ending = Ended(saveError: Option<string>) | Broke(message: string)

  /** One attempt as the server sees it: how the POST failed (`None` when the
      stream opened), the chunks of the body, each the text `chunk.toString()`
      gives for that chunk's bytes on their own, and how the stream ended. */
  datatype Attempt = Attempt(failure: Option<RequestFailure>, chunks: seq<string>, ending: Ending)

  /** What is written to `data/results/<id>.json`, without the timestamp and
      the cost. */
  datatype SavedResult = SavedResult(id: string, query: string, answerHtml: string, sources: seq<SearchItem>,
                                     usage: Option<Json>, modelId: Option<string>, modelName: Option<string>,
                                     modelProvider: Option<string>)

  // ---------------------------------------------------------------------------
  // What an attempt does to the response
  // ---------------------------------------------------------------------------

  /** One thing done to the response: a frame sent, or `res.end()`. */
  datatype Act = Send(frame: Frame) | Close

  /** The response as the browser receives it. */
  datatype Wire = Wire(log: seq<Write>, ended: bool)

  /** Doing `acts` in order: frames sent after the end are not delivered. */
  function Perform(w: Wire, acts: seq<Act>): (r: Wire)
    ensures w.ended ==> r.log == w.log
    decreases |acts|
  {
    if acts == [] then w
    else
      var next := match acts[0]
        case Send(f) => if w.ended then w else Wire(w.log + [Sent(f)], false)
        case Close => Wire(w.log, true);
      Perform(next, acts[1..])
  }

  lemma {:induction false} PerformAppend(w: Wire, a: seq<Act>, b: seq<Act>)
    ensures Perform(w, a + b) == Perform(Perform(w, a), b)
    decreases |a|
  {
    if a == [] {
      assert a + b == b;
    } else {
      assert (a + b)[0] == a[0];
      assert (a + b)[1..] == a[1..] + b;
      var next := match a[0]
        case Send(f) => if w.ended then w else Wire(w.log + [Sent(f)], false)
        case Close => Wire(w.log, true);
      PerformAppend(next, a[1..], b);
    }
  }

  function MessageFrame(text: string): Frame {
    Frame("message", JStr(text))
  }

  function ErrorFrame(message: string): Frame {
    Frame("error", JObj([("message", JStr(message))]))
  }

  /** `{ link: '/research/<id>', usage }`, the usage only when there is one. */
  function LinkFrame(resultId: string, usage: Option<Json>): Frame {
    Frame("resultLink", JObj([("link", JStr("/research/" + resultId))]
                             + (if usage.Some? then [("usage", usage.value)] else [])))
  }

  /** The frames of forwarded deltas, one `message` frame each. */
  function DeltaActs(deltas: seq<string>): (acts: seq<Act>)
    ensures |acts| == |deltas|
    ensures forall i :: 0 <= i < |deltas| ==> acts[i] == Send(MessageFrame(deltas[i]))
  {
    seq(|deltas|, i requires 0 <= i < |deltas| => Send(MessageFrame(deltas[i])))
  }

  /** Sending the delta frames delivers what `StreamDecoder.OnData` reports. */
  lemma {:induction false} PerformDeltas(w: Wire, deltas: seq<string>)
    ensures Perform(w, DeltaActs(deltas)) == Wire(w.log + Delivered(w.ended, deltas), w.ended)
    decreases |deltas|
  {
    if deltas == [] {
      assert w.log + [] == w.log;
    } else {
      var next := if w.ended then w else Wire(w.log + [Sent(MessageFrame(deltas[0]))], false);
      assert DeltaActs(deltas)[1..] == DeltaActs(deltas[1..]);
      PerformDeltas(next, deltas[1..]);
      MessageFramesAppend([deltas[0]], deltas[1..]);
      assert [deltas[0]] + deltas[1..] == deltas;
    }
  }

  const SaveFailed := "Failed to save result for sharing."
  const MaxAttempts := 3
  const ExhaustedPrefix := "Failed after 3 attempts. Last error: "

  /** The final error message, from the last attempt's rejection. */
  function ExhaustedMessage(lastError: string): string {
    ExhaustedPrefix + (if lastError != [] then lastError else "Unknown stream error")
  }

  // ---------------------------------------------------------------------------
  // One attempt as a value
  // ---------------------------------------------------------------------------

  /** The `data` handler over all chunks of one attempt: the complete lines
      of the buffer are decoded as each chunk arrives, and chunks after an
      abort are ignored. */
  function Feed(chunks: seq<string>, buffer: string, p: Progress,
                step: (string, Progress) -> Scanned<string, Progress>): Scanned<string, Progress>
    decreases |chunks|
  {
    if chunks == [] || p.failure.Some? then Scanned([], p)
    else
      var r := Scan(CompleteLines(buffer + chunks[0]), p, step);
      var rest := Feed(chunks[1..], Remainder(buffer + chunks[0]), r.state, step);
      Scanned(r.out + rest.out, rest.state)
  }

  /** However the decoded text of the body is cut into chunks, the attempt
      decodes the complete lines of the whole text, as if it had arrived at
      once. */
  lemma {:induction false} FeedIsScan(chunks: seq<string>, buffer: string, p: Progress,
                                      step: (string, Progress) -> Scanned<string, Progress>)
    requires LineHandler(step) && '\n' !in buffer
    ensures Feed(chunks, buffer, p, step) == Scan(CompleteLines(buffer + Concat(chunks)), p, step)
    decreases |chunks|
  {
    if p.failure.Some? {
      AbortedIgnoresRest(CompleteLines(buffer + Concat(chunks)), p, step);
    } else if chunks == [] {
      assert buffer + Concat(chunks) == buffer;
      assert CompleteLines(buffer) == [];
    } else {
      var c := chunks[0];
      var r := Scan(CompleteLines(buffer + c), p, step);
      FeedIsScan(chunks[1..], Remainder(buffer + c), r.state, step);
      ScanChunks(buffer + c, Concat(chunks[1..]), p, step);
      assert buffer + Concat(chunks) == buffer + c + Concat(chunks[1..]);
    }
  }

  /** What one attempt did: its acts on the response, the record it saved,
      and why it was rejected (`None` when it resolved). */
  datatype Outcome = Outcome(acts: seq<Act>, saved: Option<SavedResult>, error: Option<string>)

  function Record(job: Job, p: Progress): SavedResult {
    SavedResult(job.resultId, job.query, p.answer, job.sources, p.usage,
                job.model.id, job.model.name, job.model.provider)
  }

  /** Why an attempt's `summarizeContentStream` threw, `None` when the
      stream opened. */
  type Open = Attempt -> Option<string>

  /** The message `summarizeContentStream` throws: a guard's, else the
      request failure's. */
  function SetupError(job: Job, a: Attempt): Option<string> {
    var guard := Guard(job.apiKey, job.model.id, job.combinedText);
    if guard.Some? then guard
    else if a.failure.Some? then Some(StreamFailureMessage(a.failure.value))
    else None
  }

  /** `SetupError` is exactly the failure of `OpenStream`. */
  lemma SetupErrorOfOpenStream(job: Job, a: Attempt)
    ensures var r := OpenStream(job.query, job.combinedText, job.sources, job.apiKey, job.model.id, a.failure);
      SetupError(job, a) == if r.Err? then Some(r.error) else None
  {
  }

  function Opener(job: Job): Open {
    (a: Attempt) => SetupError(job, a)
  }

  /** The attempt specification, `open` being `Opener(job)`. */
  function AttemptOutcome(job: Job, a: Attempt, step: (string, Progress) -> Scanned<string, Progress>, open: Open): Outcome {
    if open(a).Some? then Outcome([], None, open(a))
    else
      var fed := Feed(a.chunks, "", Start, step);
      var deltas := DeltaActs(fed.out);
      if fed.state.failure.Some? then Outcome(deltas, None, fed.state.failure)
      else
        match a.ending
        case Broke(m) => Outcome(deltas, None, Some(m))
        case Ended(Some(e)) => Outcome(deltas + [Send(ErrorFrame(SaveFailed)), Close], None, Some(e))
        case Ended(None) =>
          Outcome(deltas + [Send(LinkFrame(job.resultId, fed.state.usage)), Send(MessageFrame("[DONE]")), Close],
                  Some(Record(job, fed.state)), None)
  }

  /** An attempt that resolves has saved its record and ended the response;
      one that is rejected has saved nothing; setup failures send nothing. */
  lemma AttemptShape(job: Job, a: Attempt, step: (string, Progress) -> Scanned<string, Progress>, open: Open)
    ensures var o := AttemptOutcome(job, a, step, open);
      && (o.error.None? <==> o.saved.Some?)
      && (o.saved.Some? ==> o.saved.value.id == job.resultId && |o.acts| >= 3 && o.acts[|o.acts| - 1] == Close)
      && (open(a).Some? ==> o.acts == [])
  {
  }

  /** The saved answer is exactly the concatenation of the deltas this
      attempt forwarded, which is what its whole body decodes to from an empty
      answer: nothing of an earlier attempt is kept. */
  lemma SavedAnswer(job: Job, a: Attempt, step: (string, Progress) -> Scanned<string, Progress>, open: Open)
    requires LineHandler(step)
    requires AttemptOutcome(job, a, step, open).saved.Some?
    ensures var fed := Scan(CompleteLines(Concat(a.chunks)), Start, step);
      && AttemptOutcome(job, a, step, open).saved.value.answerHtml == fed.state.answer == Concat(fed.out)
      && |AttemptOutcome(job, a, step, open).acts| >= |fed.out|
      && AttemptOutcome(job, a, step, open).acts[..|fed.out|] == DeltaActs(fed.out)
  {
    FeedIsScan(a.chunks, "", Start, step);
    assert "" + Concat(a.chunks) == Concat(a.chunks);
    AnswerIsForwarded(CompleteLines(Concat(a.chunks)), Start, step);
    var fed := Scan(CompleteLines(Concat(a.chunks)), Start, step);
    assert "" + Concat(fed.out) == Concat(fed.out);
  }

  // ---------------------------------------------------------------------------
  // The retry as a value
  // ---------------------------------------------------------------------------

  datatype RetryResult = RetryResult(acts: seq<Act>, saved: Option<SavedResult>, success: bool, attemptsMade: nat)

  /** `processLlmStreamWithRetry(…, attempt)`: the attempt, then on a
      rejection either the next attempt or the final error. */
  function Retry(job: Job, attempts: seq<Attempt>, attempt: nat,
                 step: (string, Progress) -> Scanned<string, Progress>, open: Open): RetryResult
    requires 1 <= attempt <= MaxAttempts == |attempts|
    decreases MaxAttempts - attempt
  {
    var o := AttemptOutcome(job, attempts[attempt - 1], step, open);
    if o.error.None? then RetryResult(o.acts, o.saved, true, attempt)
    else if attempt < MaxAttempts then
      var rest := Retry(job, attempts, attempt + 1, step, open);
      RetryResult(o.acts + rest.acts, rest.saved, rest.success, rest.attemptsMade)
    else RetryResult(o.acts + [Send(ErrorFrame(ExhaustedMessage(o.error.value))), Close], None, false, attempt)
  }

  predicate Rejected(job: Job, a: Attempt, step: (string, Progress) -> Scanned<string, Progress>, open: Open) {
    AttemptOutcome(job, a, step, open).error.Some?
  }

  /** At most three attempts are made, each after the previous one was
      rejected; the retry succeeds exactly when one of the three resolves, the
      first one that does, and its record is the one saved. */
  lemma {:induction false} RetryAttempts(job: Job, attempts: seq<Attempt>, attempt: nat,
                                         step: (string, Progress) -> Scanned<string, Progress>, open: Open)
    requires 1 <= attempt <= MaxAttempts == |attempts|
    ensures var r := Retry(job, attempts, attempt, step, open);
      && attempt <= r.attemptsMade <= MaxAttempts
      && (forall k :: attempt - 1 <= k < r.attemptsMade - 1 ==> Rejected(job, attempts[k], step, open))
      && (r.success <==> !Rejected(job, attempts[r.attemptsMade - 1], step, open))
      && (!r.success ==> r.attemptsMade == MaxAttempts && r.saved.None?)
      && (r.success ==> r.saved == AttemptOutcome(job, attempts[r.attemptsMade - 1], step, open).saved)
    decreases MaxAttempts - attempt
  {
    if Rejected(job, attempts[attempt - 1], step, open) && attempt < MaxAttempts {
      RetryAttempts(job, attempts, attempt + 1, step, open);
    }
  }

  /** The final error frame: any `error` frame whose message starts with
      `Failed after 3 attempts`. */
  predicate ReportsExhaustion(a: Act) {
    && a.Send? && a.frame.event == "error" && a.frame.data.JObj? && |a.frame.data.fields| == 1
    && a.frame.data.fields[0].0 == "message" && a.frame.data.fields[0].1.JStr?
    && StartsWith(a.frame.data.fields[0].1.str, ExhaustedPrefix)
  }

  function CountReports(acts: seq<Act>): nat {
    if acts == [] then 0 else (if ReportsExhaustion(acts[0]) then 1 else 0) + CountReports(acts[1..])
  }

  lemma {:induction false} CountReportsAppend(a: seq<Act>, b: seq<Act>)
    ensures CountReports(a + b) == CountReports(a) + CountReports(b)
  {
    if a == [] {
      assert a + b == b;
    } else {
      assert (a + b)[0] == a[0];
      assert (a + b)[1..] == a[1..] + b;
      CountReportsAppend(a[1..], b);
    }
  }

  lemma {:induction false} CountReportsNone(acts: seq<Act>)
    requires forall i :: 0 <= i < |acts| ==> !ReportsExhaustion(acts[i])
    ensures CountReports(acts) == 0
  {
    if acts != [] {
      CountReportsNone(acts[1..]);
    }
  }

  lemma {:induction false} NoReportsInDeltas(deltas: seq<string>)
    ensures CountReports(DeltaActs(deltas)) == 0
    decreases |deltas|
  {
    if deltas != [] {
      assert DeltaActs(deltas)[1..] == DeltaActs(deltas[1..]);
      NoReportsInDeltas(deltas[1..]);
    }
  }

  /** No attempt sends the final error frame itself. */
  lemma AttemptReportsNothing(job: Job, a: Attempt, step: (string, Progress) -> Scanned<string, Progress>, open: Open)
    ensures CountReports(AttemptOutcome(job, a, step, open).acts) == 0
  {
    if open(a).None? {
      var fed := Feed(a.chunks, "", Start, step);
      NoReportsInDeltas(fed.out);
      var tail: seq<Act> := if fed.state.failure.Some? then []
        else match a.ending
          case Broke(_) => []
          case Ended(Some(_)) => [Send(ErrorFrame(SaveFailed)), Close]
          case Ended(None) => [Send(LinkFrame(job.resultId, fed.state.usage)), Send(MessageFrame("[DONE]")), Close];
      assert AttemptOutcome(job, a, step, open).acts == DeltaActs(fed.out) + tail;
      CountReportsAppend(DeltaActs(fed.out), tail);
      assert !StartsWith(SaveFailed, ExhaustedPrefix) by { assert SaveFailed[7] != ExhaustedPrefix[7]; }
      CountReportsNone(tail);
    }
  }

  /** The exhaustion is sent exactly once, as the last frame before the end,
      when all three attempts were rejected, and never otherwise. Whether the
      browser receives it is `SaveFailureSilencesRetries`'s concern. */
  lemma {:induction false} ExhaustionReportedOnce(job: Job, attempts: seq<Attempt>, attempt: nat,
                                                  step: (string, Progress) -> Scanned<string, Progress>, open: Open)
    requires 1 <= attempt <= MaxAttempts == |attempts|
    ensures var r := Retry(job, attempts, attempt, step, open);
      && CountReports(r.acts) == (if r.success then 0 else 1)
      && (!r.success ==> |r.acts| >= 2 && r.acts[|r.acts| - 1] == Close && ReportsExhaustion(r.acts[|r.acts| - 2]))
    decreases MaxAttempts - attempt
  {
    var o := AttemptOutcome(job, attempts[attempt - 1], step, open);
    AttemptReportsNothing(job, attempts[attempt - 1], step, open);
    if o.error.Some? {
      if attempt < MaxAttempts {
        var rest := Retry(job, attempts, attempt + 1, step, open);
        ExhaustionReportedOnce(job, attempts, attempt + 1, step, open);
        CountReportsAppend(o.acts, rest.acts);
      } else {
        var last := [Send(ErrorFrame(ExhaustedMessage(o.error.value))), Close];
        CountReportsAppend(o.acts, last);
        assert ExhaustedMessage(o.error.value)[..|ExhaustedPrefix|] == ExhaustedPrefix;
        assert ReportsExhaustion(last[0]);
        assert last[1..] == [Close] && [Close][1..] == [];
      }
    }
  }

  /** Once the response has ended, nothing more reaches the browser. */
  lemma PerformAfterEnd(w: Wire, a: seq<Act>, b: seq<Act>)
    requires Perform(w, a).ended
    ensures Perform(w, a + b).log == Perform(w, a).log
  {
    PerformAppend(w, a, b);
  }

  /** An attempt whose answer could not be saved ends the response, yet the
      retry goes on: nothing the later attempts send, neither a later
      success's link frame nor the exhaustion report, reaches the browser. */
  lemma SaveFailureSilencesRetries(job: Job, attempts: seq<Attempt>, attempt: nat,
                                   step: (string, Progress) -> Scanned<string, Progress>, open: Open, w: Wire)
    requires 1 <= attempt < MaxAttempts == |attempts|
    requires var a := attempts[attempt - 1];
      && open(a).None? && Feed(a.chunks, "", Start, step).state.failure.None?
      && a.ending.Ended? && a.ending.saveError.Some?
    ensures var o := AttemptOutcome(job, attempts[attempt - 1], step, open);
      && o.error.Some?
      && Perform(w, o.acts).ended
      && Perform(w, Retry(job, attempts, attempt, step, open).acts).log == Perform(w, o.acts).log
  {
    var a := attempts[attempt - 1];
    var o := AttemptOutcome(job, a, step, open);
    var deltas := DeltaActs(Feed(a.chunks, "", Start, step).out);
    assert o.acts == deltas + [Send(ErrorFrame(SaveFailed)), Close];
    PerformAppend(w, deltas, [Send(ErrorFrame(SaveFailed)), Close]);
    PerformTail(Perform(w, deltas), ErrorFrame(SaveFailed));
    PerformAfterEnd(w, o.acts, Retry(job, attempts, attempt + 1, step, open).acts);
  }

  /** Whichever way the retry goes, the response is ended at the end. */
  lemma {:induction false} RetryEndsResponse(job: Job, attempts: seq<Attempt>, attempt: nat,
                                             step: (string, Progress) -> Scanned<string, Progress>, open: Open, w: Wire)
    requires 1 <= attempt <= MaxAttempts == |attempts|
    ensures Perform(w, Retry(job, attempts, attempt, step, open).acts).ended
    decreases MaxAttempts - attempt
  {
    var o := AttemptOutcome(job, attempts[attempt - 1], step, open);
    var r := Retry(job, attempts, attempt, step, open);
    if o.error.None? {
      AttemptShape(job, attempts[attempt - 1], step, open);
      var n := |o.acts|;
      assert o.acts == o.acts[..n - 1] + [Close];
      PerformAppend(w, o.acts[..n - 1], [Close]);
    } else if attempt < MaxAttempts {
      RetryEndsResponse(job, attempts, attempt + 1, step, open, Perform(w, o.acts));
      PerformAppend(w, o.acts, Retry(job, attempts, attempt + 1, step, open).acts);
    } else {
      var last := [Send(ErrorFrame(ExhaustedMessage(o.error.value))), Close];
      assert r.acts == o.acts + last;
      PerformAppend(w, o.acts, last);
      PerformTail(Perform(w, o.acts), ErrorFrame(ExhaustedMessage(o.error.value)));
    }
  }

  // ---------------------------------------------------------------------------
  // The server's state
  // ---------------------------------------------------------------------------

  /** The results directory: saved records by id. */
  class ResultStore {
    var results: map<string, SavedResult>

    constructor ()
      ensures results == map[]
    {
      results := map[];
    }

    /** `fs.writeFile(<id>.json, JSON.stringify(resultData))` when it succeeds. */
    method Save(r: SavedResult)
      modifies this
      ensures results == old(results)[r.id := r]
    {
      results := results[r.id := r];
    }
  }

  /** `res.end()` after a check of `res.writableEnded`. */
  method EndOnce(res: Response)
    modifies res
    ensures res.ended && res.log == old(res.log)
  {
    if !res.ended {
      res.End();
    }
  }

  /** Feeds every chunk of the body to the attempt's decoder. */
  method FeedChunks(dec: StreamDecoder, chunks: seq<string>, res: Response, ghost step: (string, Progress) -> Scanned<string, Progress>) returns (ghost forwarded: seq<string>)
    requires dec.Valid() && dec.step == step && dec.buffer == "" && dec.Current() == Start && dec as object != res as object
    modifies dec, res
    ensures dec.Valid() && dec.step == step
    ensures Scanned(forwarded, dec.Current()) == Feed(chunks, "", Start, dec.step)
    ensures res.ended == old(res.ended)
    ensures res.log == old(res.log) + Delivered(old(res.ended), forwarded)
  {
    forwarded := [];
    var i := 0;
    while i < |chunks|
      invariant 0 <= i <= |chunks|
      invariant dec.Valid() && dec.step == step
      invariant Feed(chunks, "", Start, dec.step) == Combined(forwarded, Feed(chunks[i..], dec.buffer, dec.Current(), dec.step))
      invariant res.ended == old(res.ended)
      invariant res.log == old(res.log) + Delivered(old(res.ended), forwarded)
    {
      ghost var before := Feed(chunks[i..], dec.buffer, dec.Current(), dec.step);
      ghost var buffer0, p0 := dec.buffer, dec.Current();
      ghost var log0 := res.log;
      var out := dec.OnData(chunks[i], res);
      FedOneChunk(chunks, i, buffer0, p0, dec.buffer, dec.Current(), out, dec.step);
      AppendAssoc(forwarded, out, Feed(chunks[i + 1..], dec.buffer, dec.Current(), dec.step).out);
      DeliveredAppend(old(res.log), old(res.ended), forwarded, out, log0, res.log);
      forwarded := forwarded + out;
      i := i + 1;
    }
    assert chunks[i..] == [];
    assert forwarded + [] == forwarded;
  }

  function Combined(forwarded: seq<string>, rest: Scanned<string, Progress>): Scanned<string, Progress> {
    Scanned(forwarded + rest.out, rest.state)
  }

  /** One chunk through `OnData`, in terms of `Feed`. */
  lemma FedOneChunk(chunks: seq<string>, i: nat, buffer0: string, p0: Progress, buffer1: string, p1: Progress,
                    out: seq<string>, step: (string, Progress) -> Scanned<string, Progress>)
    requires i < |chunks|
    requires p0.failure.Some? ==> out == [] && p1 == p0
    requires p0.failure.None? ==>
      var r := Scan(CompleteLines(buffer0 + chunks[i]), p0, step);
      out == r.out && p1 == r.state && (p1.failure.None? ==> buffer1 == Remainder(buffer0 + chunks[i]))
    ensures Feed(chunks[i..], buffer0, p0, step) == Combined(out, Feed(chunks[i + 1..], buffer1, p1, step))
  {
    assert chunks[i..][0] == chunks[i] && chunks[i..][1..] == chunks[i + 1..];
    if p0.failure.Some? {
      assert [] + Feed(chunks[i + 1..], buffer1, p1, step).out == [];
    }
  }

  lemma DeliveredAppend(base: seq<Write>, ended: bool, forwarded: seq<string>, out: seq<string>,
                        before: seq<Write>, after: seq<Write>)
    requires before == base + Delivered(ended, forwarded)
    requires after == before + Delivered(ended, out)
    ensures after == base + Delivered(ended, forwarded + out)
  {
    if ended {
      assert before == base && after == before;
    } else {
      MessageFramesAppend(forwarded, out);
      AppendAssoc(base, MessageFrames(forwarded), MessageFrames(out));
    }
  }

  lemma PerformTail(w: Wire, f: Frame)
    ensures Perform(w, [Send(f), Close]) == Wire(if w.ended then w.log else w.log + [Sent(f)], true)
  {
    assert [Send(f), Close][1..] == [Close] && [Close][1..] == [];
  }

  lemma PerformTail2(w: Wire, f1: Frame, f2: Frame)
    ensures Perform(w, [Send(f1), Send(f2), Close]) == Wire(if w.ended then w.log else w.log + [Sent(f1), Sent(f2)], true)
  {
    var next := if w.ended then w else Wire(w.log + [Sent(f1)], false);
    assert [Send(f1), Send(f2), Close][1..] == [Send(f2), Close];
    PerformTail(next, f2);
    assert w.log + [Sent(f1)] + [Sent(f2)] == w.log + [Sent(f1), Sent(f2)];
  }

  /** One attempt: open the stream, feed its chunks to a fresh decoder, then
      the `end` or `error` handler. */
  method RunAttempt(job: Job, a: Attempt, decode: string -> Payload, res: Response, store: ResultStore)
    returns (error: Option<string>)
    modifies res, store
    ensures var o := AttemptOutcome(job, a, Step(decode), Opener(job));
      && error == o.error
      && Wire(res.log, res.ended) == Perform(Wire(old(res.log), old(res.ended)), o.acts)
      && store.results == if o.saved.Some? then old(store.results)[job.resultId := o.saved.value] else old(store.results)
  {
    var setupError := SetupError(job, a);
    assert Opener(job)(a) == setupError;
    if setupError.Some? {
      return setupError;
    }
    ghost var w0 := Wire(res.log, res.ended);
    var dec := new StreamDecoder(decode);
    ghost var forwarded := FeedChunks(dec, a.chunks, res, Step(decode));
    PerformDeltas(w0, forwarded);
    ghost var deltas := DeltaActs(forwarded);
    if dec.streamError.Some? {
      assert [] + deltas == deltas;
      return dec.streamError;
    }
    match a.ending {
      case Broke(m) =>
        dec.OnError(m);
        return Some(m);
      case Ended(saveError) =>
        if saveError.None? {
          FinishSaved(job, dec.Current(), res, store);
          PerformAppend(w0, deltas, [Send(LinkFrame(job.resultId, dec.usageData)), Send(MessageFrame("[DONE]")), Close]);
          return None;
        } else {
          FinishUnsaved(res);
          PerformAppend(w0, deltas, [Send(ErrorFrame(SaveFailed)), Close]);
          return saveError;
        }
    }
  }

  /** A finished stream: the record is saved, then the link and the `[DONE]`
      marker are sent and the response is ended. */
  method FinishSaved(job: Job, p: Progress, res: Response, store: ResultStore)
    modifies res, store
    ensures Wire(res.log, res.ended)
         == Perform(Wire(old(res.log), old(res.ended)), [Send(LinkFrame(job.resultId, p.usage)), Send(MessageFrame("[DONE]")), Close])
    ensures store.results == old(store.results)[job.resultId := Record(job, p)]
  {
    ghost var w1 := Wire(res.log, res.ended);
    store.Save(Record(job, p));
    var link := LinkFrame(job.resultId, p.usage);
    res.SendSseMessage(link.data, link.event);
    res.SendSseMessage(JStr("[DONE]"), "message");
    EndOnce(res);
    PerformTail2(w1, link, MessageFrame("[DONE]"));
  }

  /** A stream whose record could not be saved: the error frame is sent and
      the response is ended. */
  method FinishUnsaved(res: Response)
    modifies res
    ensures Wire(res.log, res.ended) == Perform(Wire(old(res.log), old(res.ended)), [Send(ErrorFrame(SaveFailed)), Close])
  {
    ghost var w1 := Wire(res.log, res.ended);
    res.SendSseMessage(JObj([("message", JStr(SaveFailed))]), "error");
    EndOnce(res);
    PerformTail(w1, ErrorFrame(SaveFailed));
  }

  /** `r` with `done` done before it. */
  function After(done: seq<Act>, r: RetryResult): RetryResult {
    r.(acts := done + r.acts)
  }

  /** The three ways one turn of the retry loop can go, with `done` the acts
      of the attempts already rejected. */
  lemma RetryTurn(job: Job, attempts: seq<Attempt>, attempt: nat,
                  step: (string, Progress) -> Scanned<string, Progress>, open: Open, done: seq<Act>)
    requires 1 <= attempt <= MaxAttempts == |attempts|
    ensures var o := AttemptOutcome(job, attempts[attempt - 1], step, open);
      var r := After(done, Retry(job, attempts, attempt, step, open));
      && (o.error.None? ==> r == RetryResult(done + o.acts, o.saved, true, attempt))
      && (o.error.Some? && attempt == MaxAttempts ==>
            r == RetryResult(done + o.acts + [Send(ErrorFrame(ExhaustedMessage(o.error.value))), Close], None, false, attempt))
      && (o.error.Some? && attempt < MaxAttempts ==>
            r == After(done + o.acts, Retry(job, attempts, attempt + 1, step, open)))
  {
    var o := AttemptOutcome(job, attempts[attempt - 1], step, open);
    if o.error.Some? {
      if attempt == MaxAttempts {
        AppendAssoc(done, o.acts, [Send(ErrorFrame(ExhaustedMessage(o.error.value))), Close]);
      } else {
        AppendAssoc(done, o.acts, Retry(job, attempts, attempt + 1, step, open).acts);
      }
    }
  }

  /** `processLlmStreamWithRetry`, its recursion as a loop over the attempt
      counter: an attempt, then the next one or, after the last, the final
      error frame and the end of the response. */
  method ProcessLlmStreamWithRetry(job: Job, attempts: seq<Attempt>, decode: string -> Payload,
                                   res: Response, store: ResultStore)
    returns (success: bool)
    requires MaxAttempts == |attempts|
    modifies res, store
    ensures var r := Retry(job, attempts, 1, Step(decode), Opener(job));
      && success == r.success
      && Wire(res.log, res.ended) == Perform(Wire(old(res.log), old(res.ended)), r.acts)
      && store.results == if r.saved.Some? then old(store.results)[job.resultId := r.saved.value] else old(store.results)
  {
    ghost var step, open := Step(decode), Opener(job);
    ghost var w0 := Wire(res.log, res.ended);
    ghost var done: seq<Act> := [];
    ghost var total := Retry(job, attempts, 1, step, open);
    assert total == After(done, total);
    var attempt := 1;
    while true
      invariant 1 <= attempt <= MaxAttempts
      invariant total == After(done, Retry(job, attempts, attempt, step, open))
      invariant Wire(res.log, res.ended) == Perform(w0, done)
      invariant store.results == old(store.results)
      decreases MaxAttempts - attempt
    {
      ghost var o := AttemptOutcome(job, attempts[attempt - 1], step, open);
      RetryTurn(job, attempts, attempt, step, open, done);
      var error := RunAttempt(job, attempts[attempt - 1], decode, res, store);
      PerformAppend(w0, done, o.acts);
      if error.None? {
        return true;
      }
      AttemptShape(job, attempts[attempt - 1], step, open);
      if attempt == MaxAttempts {
        var final := ErrorFrame(ExhaustedMessage(error.value));
        ghost var w1 := Wire(res.log, res.ended);
        res.SendSseMessage(final.data, final.event);
        EndOnce(res);
        PerformTail(w1, final);
        PerformAppend(w0, done + o.acts, [Send(final), Close]);
        return false;
      }
      done := done + o.acts;
      attempt := attempt + 1;
    }
  }
}

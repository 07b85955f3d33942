/** The event-stream framing between the server and the browser, a subset of
    server-sent events (WHATWG HTML Living Standard, section 9.2): the server
    writes each message as an `event:` line, a `data:` line holding
    `JSON.stringify` of the payload, and a blank line (server.js:570-573); the
    browser splits what it has received into lines, lets an `event: ` line set
    the current event, hands every `data: ` line to the current event's handler
    and then falls back to the event `message` (public/js/main.js:331-430). */
module Sse {
  import opened Wrappers
  import opened Text
  import opened Json

  // ---------------------------------------------------------------------------
  // Server side
  // ---------------------------------------------------------------------------

  /** `sendSseMessage(data, event)`: the text written to the response. */
  function Encode(event: string, data: Json): string {
    "event: " + event + "\n" + "data: " + Stringify(data) + "\n\n"
  }

  datatype Frame = Frame(event: string, data: Json)

  /** Everything the server wrote, frame after frame. */
  function EncodeFrames(frames: seq<Frame>): string {
    if frames == [] then "" else Encode(frames[0].event, frames[0].data) + EncodeFrames(frames[1..])
  }

  /** The three lines a frame consists of. */
  function FrameLines(f: Frame): seq<string> {
    ["event: " + f.event, "data: " + Stringify(f.data), ""]
  }

  function AllFrameLines(frames: seq<Frame>): seq<string> {
    if frames == [] then [] else FrameLines(frames[0]) + AllFrameLines(frames[1..])
  }

  /** One write to the response: a frame sent through `sendSseMessage`, or
      text written directly. */
  datatype Write = Sent(frame: Frame) | Raw(text: string)

  function WireText(w: Write): string {
    match w
    case Sent(f) => Encode(f.event, f.data)
    case Raw(t) => t
  }

  /** The text of a response body. */
  function Body(log: seq<Write>): string {
    if log == [] then "" else WireText(log[0]) + Body(log[1..])
  }

  function SentFrames(frames: seq<Frame>): (ws: seq<Write>)
    ensures |ws| == |frames| && forall i :: 0 <= i < |frames| ==> ws[i] == Sent(frames[i])
  {
    if frames == [] then [] else [Sent(frames[0])] + SentFrames(frames[1..])
  }

  lemma {:induction false} BodyOfFrames(frames: seq<Frame>)
    ensures Body(SentFrames(frames)) == EncodeFrames(frames)
  {
    if frames != [] {
      assert SentFrames(frames)[1..] == SentFrames(frames[1..]);
      BodyOfFrames(frames[1..]);
    }
  }

  /** An event-stream response: the writes that reached the client, in order,
      and whether `res.end()` has been called. Writes after the end do not
      reach the client. */
  class Response {
    var log: seq<Write>
    var ended: bool

    constructor ()
      ensures log == [] && !ended
    {
      log := [];
      ended := false;
    }

    /** `res.write(text)`. */
    method Write(text: string)
      modifies this
      ensures ended == old(ended)
      ensures log == if old(ended) then old(log) else old(log) + [Raw(text)]
    {
      if !ended {
        log := log + [Raw(text)];
      }
    }

    /** `sendSseMessage(data, event)`. */
    method SendSseMessage(data: Json, event: string)
      modifies this
      ensures ended == old(ended)
      ensures log == if old(ended) then old(log) else old(log) + [Sent(Frame(event, data))]
    {
      if !ended {
        log := log + [Sent(Frame(event, data))];
      }
    }

    /** `if (!res.writableEnded) res.end()`. */
    method End()
      modifies this
      ensures ended && log == old(log)
    {
      ended := true;
    }
  }

  // ---------------------------------------------------------------------------
  // Browser side, without the handlers
  // ---------------------------------------------------------------------------

  /** What one `data: ` line delivers to a handler: the event current at that
      point and the text after `data: `, which goes to `JSON.parse`. */
  datatype Dispatch = Dispatch(event: string, payload: string)

  /** One complete line of the buffer, from the current event `event`: the
      trimmed line either sets the current event, or dispatches its data under
      the current event and resets the event to `message`, or is ignored (the
      blank line ending a frame, comments, other fields). */
  function DecodeLine(rawLine: string, event: string): (r: Scanned<Dispatch, string>)
    ensures |r.out| <= 1
    ensures r.out != [] ==> r.out[0].event == event && r.state == "message"
    ensures r.out == [] && r.state != event ==> StartsWith(Trim(rawLine), "event: ")
  {
    var line := Trim(rawLine);
    if StartsWith(line, "event: ") then Scanned([], Trim(line[7..]))
    else if StartsWith(line, "data: ") then Scanned([Dispatch(event, line[6..])], "message")
    else Scanned([], event)
  }

  /** Decoding a sequence of complete lines from the current event `event`. */
  function DecodeLines(lines: seq<string>, event: string): Scanned<Dispatch, string> {
    Scan(lines, event, DecodeLine)
  }

  /** An event name the client reads back exactly: non-empty, on one line, and
      not padded with whitespace. The four the server uses qualify. */
  predicate EventName(e: string) {
    WireSafe(e)
  }

  lemma ServerEventNames()
    ensures EventName("message") && EventName("info") && EventName("resultLink") && EventName("error")
  {
  }

  lemma {:induction false} EncodeIsFrameLines(frames: seq<Frame>)
    ensures EncodeFrames(frames) == Unlines(AllFrameLines(frames))
  {
    if frames != [] {
      var f := frames[0];
      EncodeIsFrameLines(frames[1..]);
      UnlinesAppend(FrameLines(f), AllFrameLines(frames[1..]));
      calc {
        Unlines(FrameLines(f));
        { UnlinesCons("event: " + f.event, ["data: " + Stringify(f.data), ""]);
          UnlinesCons("data: " + Stringify(f.data), [""]);
          UnlinesCons("", []); }
        ("event: " + f.event) + "\n" + (("data: " + Stringify(f.data)) + "\n" + ("" + "\n" + ""));
        Encode(f.event, f.data);
      }
    }
  }

  lemma {:induction false} AllFrameLinesNoNewline(frames: seq<Frame>)
    requires forall i :: 0 <= i < |frames| ==> EventName(frames[i].event)
    ensures forall i :: 0 <= i < |AllFrameLines(frames)| ==> '\n' !in AllFrameLines(frames)[i]
  {
    if frames != [] {
      AllFrameLinesNoNewline(frames[1..]);
      var f := frames[0];
      assert '\n' !in "event: " + f.event;
      assert '\n' !in "data: " + Stringify(f.data);
    }
  }

  lemma EventLine(e: string, event: string)
    requires EventName(e)
    ensures DecodeLine("event: " + e, event) == Scanned([], e)
  {
    var l := "event: " + e;
    TrimOfTrimmed(l);
    assert l[..7] == "event: " && l[7..] == e;
    TrimOfTrimmed(e);
  }

  lemma DataLine(payload: string, event: string)
    requires WireSafe(payload)
    ensures DecodeLine("data: " + payload, event) == Scanned([Dispatch(event, payload)], "message")
  {
    var l := "data: " + payload;
    TrimOfTrimmed(l);
    assert l[..6] == "data: " && l[6..] == payload;
    assert !StartsWith(l, "event: ") by { assert l[0] == 'd'; }
  }

  lemma BlankLine(event: string)
    ensures DecodeLine("", event) == Scanned([], event)
  {
    TrimOfTrimmed("");
  }

  /** The lines of one frame dispatch its payload text under its event name. */
  lemma DecodeFrame(f: Frame, event: string)
    requires EventName(f.event)
    ensures DecodeLines(FrameLines(f), event) == Scanned([Dispatch(f.event, Stringify(f.data))], "message")
  {
    var lines := FrameLines(f);
    EventLine(f.event, event);
    DataLine(Stringify(f.data), f.event);
    BlankLine("message");
    Scan3("event: " + f.event, "data: " + Stringify(f.data), "", event, DecodeLine);
  }

  /** Decoding what the server encodes: every frame reaches the browser as one
      dispatch of its own event name and its exact `JSON.stringify` text, in the
      order sent, whatever the current event was before. */
  lemma {:induction false} DecodeFrames(frames: seq<Frame>, event: string)
    requires forall i :: 0 <= i < |frames| ==> EventName(frames[i].event)
    ensures DecodeLines(AllFrameLines(frames), event).out
         == seq(|frames|, i requires 0 <= i < |frames| => Dispatch(frames[i].event, Stringify(frames[i].data)))
    ensures frames != [] ==> DecodeLines(AllFrameLines(frames), event).state == "message"
    ensures frames == [] ==> DecodeLines(AllFrameLines(frames), event).state == event
  {
    if frames != [] {
      DecodeFrame(frames[0], event);
      ScanAppend(FrameLines(frames[0]), AllFrameLines(frames[1..]), event, DecodeLine);
      DecodeFrames(frames[1..], "message");
    }
  }

  /** The round trip through the wire: the text the server writes for a
      sequence of frames splits into complete lines with nothing left over, and
      those lines decode to one dispatch per frame, in order. */
  lemma RoundTrip(frames: seq<Frame>)
    requires forall i :: 0 <= i < |frames| ==> EventName(frames[i].event)
    ensures Remainder(EncodeFrames(frames)) == ""
    ensures DecodeLines(CompleteLines(EncodeFrames(frames)), "message").out
         == seq(|frames|, i requires 0 <= i < |frames| => Dispatch(frames[i].event, Stringify(frames[i].data)))
    ensures DecodeLines(CompleteLines(EncodeFrames(frames)), "message").state == "message"
  {
    EncodeIsFrameLines(frames);
    AllFrameLinesNoNewline(frames);
    assert Unlines(AllFrameLines(frames)) + "" == Unlines(AllFrameLines(frames));
    LinesOfUnlines(AllFrameLines(frames), "");
    DecodeFrames(frames, "message");
  }
}

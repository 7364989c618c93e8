/**
 * The `/api/chat` endpoint: the selected entries become the model's context, and the reply
 * is streamed back as server-sent events, one `data:` frame per chunk, closed by a `[DONE]`
 * frame unless the upstream stream fails.
 */
module ChatRoute {
  import opened Wrappers
  import opened Text
  import opened Entities

  // `JSON.stringify` of a string and of `{ content }`.

  function HexDigit(n: nat): (c: char)
    requires n < 16
    ensures c != '\n'
  {
    if n < 10 then (48 + n) as char else (87 + n) as char
  }

  /** The escape `JSON.stringify` writes for one character of a string. */
  function EscapeChar(c: char): (r: string)
    ensures '\n' !in r
    ensures (c as int >= 0x20 && c != '"' && c != '\\') ==> r == [c]
  {
    if c == '"' then "\\\""
    else if c == '\\' then "\\\\"
    else if c as int == 0x08 then "\\b"
    else if c == '\t' then "\\t"
    else if c == '\n' then "\\n"
    else if c as int == 0x0C then "\\f"
    else if c == '\r' then "\\r"
    else if (c as int) < 0x20 then "\\u00" + [HexDigit(c as int / 16), HexDigit(c as int % 16)]
    else [c]
  }

  function Escaped(s: string): (r: string)
    ensures '\n' !in r
    decreases |s|
  {
    if |s| == 0 then "" else EscapeChar(s[0]) + Escaped(s[1..])
  }

  /** A string literal in JSON: it never holds a raw line break, whatever the string. */
  function JsonString(s: string): (r: string)
    ensures '\n' !in r
    ensures |r| >= 2 && r[0] == '"' && r[|r| - 1] == '"'
  {
    "\"" + Escaped(s) + "\""
  }

  /** `JSON.stringify({ content: chunk })`. */
  function ContentJson(chunk: string): (r: string)
    ensures '\n' !in r
    ensures |r| > 0 && r[0] == '{'
  {
    "{\"content\":" + JsonString(chunk) + "}"
  }

  const DataPrefix := "data: "
  const DoneMarker := "[DONE]"
  const DoneFrame := DataPrefix + DoneMarker + "\n\n"

  /** The frame a chunk is sent as. */
  function Frame(chunk: string): (f: string)
    ensures f == DataPrefix + ContentJson(chunk) + "\n\n"
    ensures f != DoneFrame
  {
    var f := DataPrefix + ContentJson(chunk) + "\n\n";
    assert f[6] == '{' && DoneFrame[6] == '[';
    f
  }

  function Frames(chunks: seq<string>): (fs: seq<string>)
    ensures |fs| == |chunks|
    ensures forall i :: 0 <= i < |chunks| ==> fs[i] == Frame(chunks[i])
    decreases |chunks|
  {
    if |chunks| == 0 then [] else Frames(chunks[..|chunks| - 1]) + [Frame(chunks[|chunks| - 1])]
  }

  /** What the response stream carries: a frame per chunk, then `[DONE]` only if the upstream finished. */
  function Emitted(chunks: seq<string>, fails: bool): seq<string> {
    Frames(chunks) + (if fails then [] else [DoneFrame])
  }

  /** The provider's stream: the chunks it delivered, and whether it then failed instead of finishing. */
  datatype Upstream = Upstream(chunks: seq<string>, fails: bool)

  /** The request body `{ messages, sources }`; `None` when it is not JSON or `sources` is not a list. */
  datatype ChatRequest = ChatRequest(messages: seq<ChatLine>, sources: seq<Excerpt>)

  datatype ChatResponse =
    /** A `text/event-stream` response: the context given to the model and what the stream carried. */
    | EventStream(context: seq<string>, frames: seq<string>, closed: bool, errored: bool)
    | ChatFailed(code: int, message: string)

  const SendFailed := "Failed to send message"

  /** The stream controller: the frames enqueued so far, and how the stream ended. */
  class StreamController {
    var frames: seq<string>
    var closed: bool
    var errored: bool

    constructor()
      ensures frames == [] && !closed && !errored
    {
      frames := [];
      closed := false;
      errored := false;
    }

    method Enqueue(f: string)
      modifies this
      ensures frames == old(frames) + [f] && closed == old(closed) && errored == old(errored)
    {
      frames := frames + [f];
    }

    method Close()
      modifies this
      ensures frames == old(frames) && closed && errored == old(errored)
    {
      closed := true;
    }

    method Error()
      modifies this
      ensures frames == old(frames) && closed == old(closed) && errored
    {
      errored := true;
    }
  }

  /** The stream's `start`: each chunk is enqueued as it arrives, then `[DONE]` and close, or the error. */
  method Start(controller: StreamController, up: Upstream)
    requires controller.frames == [] && !controller.closed && !controller.errored
    modifies controller
    ensures controller.frames == Emitted(up.chunks, up.fails)
    ensures controller.closed <==> !up.fails
    ensures controller.errored <==> up.fails
  {
    var i := 0;
    while i < |up.chunks|
      invariant 0 <= i <= |up.chunks|
      invariant controller.frames == Frames(up.chunks[..i])
      invariant !controller.closed && !controller.errored
    {
      assert up.chunks[..i + 1][..i] == up.chunks[..i];
      controller.Enqueue(Frame(up.chunks[i]));
      i := i + 1;
    }
    assert up.chunks[..i] == up.chunks;
    if up.fails {
      controller.Error();
    } else {
      controller.Enqueue(DoneFrame);
      controller.Close();
    }
  }

  /** `POST`. `provider` streams the reply for the messages and the context. */
  method Post(body: Option<ChatRequest>, provider: (seq<ChatLine>, seq<string>) -> Upstream) returns (r: ChatResponse)
    ensures body.None? ==> r == ChatFailed(500, SendFailed)
    ensures body.Some? ==>
              var context := FormatSelected(body.value.sources);
              var up := provider(body.value.messages, context);
              r == EventStream(context, Emitted(up.chunks, up.fails), !up.fails, up.fails)
  {
    if body.None? {
      return ChatFailed(500, SendFailed);
    }
    var context := FormatSelected(body.value.sources);
    var up := provider(body.value.messages, context);
    var controller := new StreamController();
    Start(controller, up);
    r := EventStream(context, controller.frames, controller.closed, controller.errored);
  }

  /**
   * One frame per chunk, in order; after a finished upstream exactly one `[DONE]`, as the last
   * frame; after a failed one, none.
   */
  lemma EmittedFrames(chunks: seq<string>, fails: bool)
    ensures var fs := Emitted(chunks, fails);
            && |fs| == |chunks| + (if fails then 0 else 1)
            && (forall i :: 0 <= i < |chunks| ==> fs[i] == Frame(chunks[i]) && fs[i] != DoneFrame)
            && (fails <==> DoneFrame !in fs)
            && (!fails ==> fs[|fs| - 1] == DoneFrame)
  {
    var fs := Emitted(chunks, fails);
    if !fails {
      assert fs[|fs| - 1] == DoneFrame;
    }
  }
}

/** The browser side of a reply: `streamMessageToClaud` builds the request
    payload, posts it, reads the response body as decoded text pieces, keeps
    the incomplete tail of the text between reads, dispatches every complete
    `data: ` line, and yields chunks as they arrive and one deferred `done`;
    `sendMessageToClaud` folds what the stream yields into one reply.

    The network is a parameter: `server` maps the payload to the reply, whose
    body is the sequence of text pieces `TextDecoder` produces, and `parse`
    stands for `JSON.parse` followed by a look at the `type` key (`None` when
    it throws). */
module MessageService {
  import opened Common
  import opened Records

  // ---------------------------------------------------------------------------
  // Request payload

  /** One `{role, content}` entry of the outgoing `messages` array. */
  datatype Turn = Turn(role: string, content: string)

  datatype Payload = Payload(messages: seq<Turn>, maxTokens: int, useCache: bool,
                             systemPrompt: string, image: Option<Image>)

  const MaxTokens: int := 8192

  const SystemPrompt: string :=
    "You are Claude, a helpful AI assistant. Engage in natural conversation, \n"
    + "    be helpful, harmless, and honest. Provide thoughtful and detailed responses when appropriate."

  /** The payload posted for a new user turn: the earlier messages reduced to
      their role and content, in order, then the new user turn; the fixed
      token limit, caching on, the fixed system prompt, and the `{url, type}`
      image only when one is given. */
  function BuildPayload(previous: seq<MessageRecord>, newContent: string, image: Option<Image>): Payload {
    var earlier := seq(|previous|, i requires 0 <= i < |previous| => Turn(previous[i].role, previous[i].content));
    Payload(earlier + [Turn("user", newContent)], MaxTokens, true, SystemPrompt,
            if image.Some? then Some(Image(image.value.url, image.value.mimeType)) else None)
  }

  /** The payload's message list is the earlier messages' roles and contents
      in order, then exactly one new user turn; the other fields are fixed,
      and the image is present exactly when one is given. */
  lemma BuildPayloadSpec(previous: seq<MessageRecord>, newContent: string, image: Option<Image>)
    ensures var p := BuildPayload(previous, newContent, image);
            && |p.messages| == |previous| + 1
            && (forall i :: 0 <= i < |previous| ==> p.messages[i] == Turn(previous[i].role, previous[i].content))
            && p.messages[|previous|] == Turn("user", newContent)
            && p.maxTokens == 8192 && p.useCache && p.systemPrompt == SystemPrompt
            && (p.image.Some? <==> image.Some?)
            && (image.Some? ==> p.image.value.url == image.value.url && p.image.value.mimeType == image.value.mimeType)
  {
  }

  // ---------------------------------------------------------------------------
  // `buffer.split('\n')`

  predicate NoNewline(s: string) {
    '\n' !in s
  }

  predicate AllLines(ls: seq<string>) {
    forall i :: 0 <= i < |ls| ==> NoNewline(ls[i])
  }

  /** `parts.join('\n')`. */
  function Join(parts: seq<string>): string
    requires |parts| >= 1
  {
    if |parts| == 1 then parts[0] else Join(parts[..|parts| - 1]) + "\n" + parts[|parts| - 1]
  }

  /** `s.split('\n')`: the pieces between newlines, at least one. */
  function Split(s: string): (parts: seq<string>)
    ensures |parts| >= 1
  {
    if s == [] then [""]
    else
      var init := Split(s[..|s| - 1]);
      var c := s[|s| - 1];
      if c == '\n' then init + [""] else init[..|init| - 1] + [init[|init| - 1] + [c]]
  }

  /** The pieces contain no newline and joining them with newlines gives the
      text back. */
  lemma SplitSpec(s: string)
    ensures AllLines(Split(s)) && Join(Split(s)) == s
  {
    SplitLines(s);
    SplitJoined(s);
  }

  /** No piece of a split holds a newline. */
  lemma {:induction false} SplitLines(s: string)
    ensures AllLines(Split(s))
  {
    if s != [] {
      var front, c := s[..|s| - 1], s[|s| - 1];
      var init := Split(front);
      SplitLines(front);
      assert s == front + [c];
      SplitOfSnoc(front, c);
      if c != '\n' {
        var parts := Split(s);
        assert forall i :: 0 <= i < |parts| - 1 ==> parts[i] == init[i];
        assert parts[|parts| - 1] == init[|init| - 1] + [c];
      }
    }
  }

  /** Joining the pieces of a split with newlines gives the text back. */
  lemma {:induction false} SplitJoined(s: string)
    ensures Join(Split(s)) == s
  {
    if s != [] {
      var front, c := s[..|s| - 1], s[|s| - 1];
      var init := Split(front);
      SplitJoined(front);
      assert s == front + [c];
      SplitOfSnoc(front, c);
      if c == '\n' {
        var parts := init + [""];
        calc {
          Join(parts);
          { assert parts[..|init|] == init; }
          Join(init) + "\n" + "";
          front + [c];
        }
      } else if |init| == 1 {
        assert Split(s) == [init[0] + [c]];
      } else {
        var last := init[|init| - 1] + [c];
        var parts := init[..|init| - 1] + [last];
        calc {
          Join(parts);
          { assert parts[..|parts| - 1] == init[..|init| - 1]; }
          Join(init[..|init| - 1]) + "\n" + last;
          (Join(init[..|init| - 1]) + "\n" + init[|init| - 1]) + [c];
          front + [c];
        }
      }
    }
  }

  lemma SplitOfSnoc(s: string, c: char)
    ensures Split(s + [c]) == (var init := Split(s);
                               if c == '\n' then init + [""]
                               else init[..|init| - 1] + [init[|init| - 1] + [c]])
  {
    assert (s + [c])[..|s|] == s;
  }

  /** Splitting a join of newline-free parts gives the parts back. */
  lemma {:induction false} SplitJoin(parts: seq<string>)
    requires |parts| >= 1 && AllLines(parts)
    ensures Split(Join(parts)) == parts
  {
    if |parts| == 1 {
      SplitNoNewline(parts[0]);
    } else {
      var init, last := parts[..|parts| - 1], parts[|parts| - 1];
      assert AllLines(init) by { assert forall i :: 0 <= i < |init| ==> init[i] == parts[i]; }
      calc {
        Split(Join(parts));
        Split((Join(init) + "\n") + last);
        { SplitJoin(init); SplitOfSnoc(Join(init), '\n');
          SplitThenSegment(Join(init) + "\n", init, last); }
        init + [last];
        parts;
      }
    }
  }

  /** A string without newline splits into itself alone. */
  lemma {:induction false} SplitNoNewline(s: string)
    requires NoNewline(s)
    ensures Split(s) == [s]
  {
    if s != [] {
      SplitNoNewline(s[..|s| - 1]);
      assert s == s[..|s| - 1] + [s[|s| - 1]];
      SplitOfSnoc(s[..|s| - 1], s[|s| - 1]);
    }
  }

  /** Appending newline-free text extends the last piece of a split that ended in "". */
  lemma {:induction false} SplitThenSegment(x: string, init: seq<string>, seg: string)
    requires Split(x) == init + [""] && NoNewline(seg)
    ensures Split(x + seg) == init + [seg]
    decreases |seg|
  {
    if seg != [] {
      var front := seg[..|seg| - 1];
      var c := seg[|seg| - 1];
      SplitThenSegment(x, init, front);
      assert x + seg == (x + front) + [c];
      SplitOfSnoc(x + front, c);
      assert (init + [front])[..|init|] == init;
      assert seg == front + [c];
    } else {
      assert x + seg == x;
    }
  }

  // ---------------------------------------------------------------------------
  // Complete lines and the kept tail

  /** The text of complete lines, each followed by its newline. */
  function Terminated(ls: seq<string>): string {
    if ls == [] then "" else Terminated(ls[..|ls| - 1]) + ls[|ls| - 1] + "\n"
  }

  /** The complete lines of a text: every piece of the split but the last. */
  function CompleteLines(s: string): seq<string> {
    var parts := Split(s);
    parts[..|parts| - 1]
  }

  /** What stays in `buffer`: the text after the last newline. */
  function Remainder(s: string): string {
    var parts := Split(s);
    parts[|parts| - 1]
  }

  lemma {:induction false} TerminatedJoin(ls: seq<string>, tail: string)
    ensures Terminated(ls) + tail == Join(ls + [tail])
  {
    if ls == [] {
      assert ls + [tail] == [tail];
    } else {
      var init, last := ls[..|ls| - 1], ls[|ls| - 1];
      calc {
        Join(ls + [tail]);
        { assert (ls + [tail])[..|ls|] == ls; }
        Join(ls) + "\n" + tail;
        { assert ls == init + [last]; TerminatedJoin(init, last); }
        Terminated(init) + last + "\n" + tail;
        Terminated(ls) + tail;
      }
    }
  }

  lemma {:induction false} TerminatedAppend(a: seq<string>, b: seq<string>)
    ensures Terminated(a + b) == Terminated(a) + Terminated(b)
    decreases |b|
  {
    if b == [] {
      assert a + b == a;
    } else {
      var front, last := b[..|b| - 1], b[|b| - 1];
      calc {
        Terminated(a + b);
        { assert (a + b)[..|a + b| - 1] == a + front; assert (a + b)[|a + b| - 1] == last; }
        Terminated(a + front) + last + "\n";
        { TerminatedAppend(a, front); }
        Terminated(a) + Terminated(front) + last + "\n";
        Terminated(a) + (Terminated(front) + last + "\n");
        Terminated(a) + Terminated(b);
      }
    }
  }

  /** A text splits in exactly one way into newline-terminated lines and a
      newline-free tail: the complete lines and the remainder. */
  lemma LinesDetermined(ls: seq<string>, tail: string, s: string)
    requires AllLines(ls) && NoNewline(tail) && Terminated(ls) + tail == s
    ensures CompleteLines(s) == ls && Remainder(s) == tail
  {
    TerminatedJoin(ls, tail);
    SplitJoin(ls + [tail]);
    assert (ls + [tail])[..|ls|] == ls;
  }

  /** The complete lines and the remainder give back the whole text. */
  lemma LinesAndRemainder(s: string)
    ensures AllLines(CompleteLines(s)) && NoNewline(Remainder(s))
    ensures Terminated(CompleteLines(s)) + Remainder(s) == s
  {
    var parts := Split(s);
    SplitSpec(s);
    TerminatedJoin(CompleteLines(s), Remainder(s));
    assert CompleteLines(s) + [Remainder(s)] == parts;
  }

  // ---------------------------------------------------------------------------
  // Dispatch of one line

  datatype DoneRecord = DoneRecord(content: string, thinking: Option<string>,
                                   usage: Option<map<string, int>>, cached: Option<bool>)

  /** What `JSON.parse` gives for a `data: ` payload, as far as the dispatch
      on its `type` key goes. */
  datatype Parsed = ChunkData(text: string) | DoneData(record: DoneRecord) | ErrorData(error: string) | OtherData

  /** `JSON.parse` followed by the read of `type`; `None` when that throws. */
  type Parser = string -> Option<Parsed>

  /** What the stream yields. */
  datatype StreamEvent = Chunk(text: string) | Done(record: DoneRecord)

  /** What one complete line does: nothing, yield a chunk, replace the kept
      `done` record, or throw inside the `try` and only get logged. */
  datatype LineEffect = Skip | Yield(text: string) | Keep(record: DoneRecord) | Logged

  const DataPrefix: string := "data: "

  /** What a parsed payload does, by its `type`. */
  function Effect(p: Option<Parsed>): LineEffect {
    if p.None? then Logged
    else match p.value
      case ChunkData(t) => Yield(t)
      case DoneData(d) => Keep(d)
      case ErrorData(_) => Logged
      case OtherData => Skip
  }

  /** A line is parsed only when it starts with `data: ` and the rest is not
      blank; a parse failure and an `error` event are both caught and only
      logged. */
  function Dispatch(line: string, parse: Parser): LineEffect {
    if !StartsWith(line, DataPrefix) then Skip
    else if IsBlank(line[6..]) then Skip
    else Effect(parse(line[6..]))
  }

  /** A line has an effect only when it starts with `data: ` and the rest is
      not blank; then the effect is the one its parse result names. */
  lemma DispatchRule(line: string, parse: Parser)
    ensures Dispatch(line, parse) != Skip ==> StartsWith(line, DataPrefix) && !AllSpace(line[6..])
    ensures StartsWith(line, DataPrefix) && !AllSpace(line[6..]) ==>
              Dispatch(line, parse) == Effect(parse(line[6..]))
  {
    if StartsWith(line, DataPrefix) {
      BlankIffAllSpace(line[6..]);
    }
  }

  function YieldOf(e: LineEffect): seq<StreamEvent> {
    if e.Yield? then [Chunk(e.text)] else []
  }

  /** The chunks the lines yield, in the order the lines arrived. */
  function Yields(lines: seq<string>, parse: Parser): seq<StreamEvent> {
    if lines == [] then []
    else Yields(lines[..|lines| - 1], parse) + YieldOf(Dispatch(lines[|lines| - 1], parse))
  }

  /** The lines yield only chunks, at most one per line. */
  lemma {:induction false} YieldsAreChunks(lines: seq<string>, parse: Parser)
    ensures |Yields(lines, parse)| <= |lines|
    ensures forall i :: 0 <= i < |Yields(lines, parse)| ==> Yields(lines, parse)[i].Chunk?
  {
    if lines != [] {
      YieldsAreChunks(lines[..|lines| - 1], parse);
    }
  }

  /** The `done` record the lines leave in `finalData`: the last one received. */
  function LastDone(lines: seq<string>, parse: Parser): Option<DoneRecord> {
    if lines == [] then None
    else
      var e := Dispatch(lines[|lines| - 1], parse);
      if e.Keep? then Some(e.record) else LastDone(lines[..|lines| - 1], parse)
  }

  lemma {:induction false} YieldsAppend(a: seq<string>, b: seq<string>, parse: Parser)
    ensures Yields(a + b, parse) == Yields(a, parse) + Yields(b, parse)
    decreases |b|
  {
    if b == [] {
      assert a + b == a;
    } else {
      var front, last := b[..|b| - 1], b[|b| - 1];
      var y := YieldOf(Dispatch(last, parse));
      calc {
        Yields(a + b, parse);
        { assert (a + b)[..|a + b| - 1] == a + front; assert (a + b)[|a + b| - 1] == last; }
        Yields(a + front, parse) + y;
        { YieldsAppend(a, front, parse); }
        Yields(a, parse) + Yields(front, parse) + y;
        Yields(a, parse) + (Yields(front, parse) + y);
        Yields(a, parse) + Yields(b, parse);
      }
    }
  }

  lemma {:induction false} LastDoneAppend(a: seq<string>, b: seq<string>, parse: Parser)
    ensures LastDone(a + b, parse) == if LastDone(b, parse).Some? then LastDone(b, parse) else LastDone(a, parse)
    decreases |b|
  {
    if b == [] {
      assert a + b == a;
    } else {
      var front, last := b[..|b| - 1], b[|b| - 1];
      var e := Dispatch(last, parse);
      if e.Keep? {
        calc {
          LastDone(a + b, parse);
          { assert (a + b)[|a + b| - 1] == last; }
          Some(e.record);
          LastDone(b, parse);
        }
      } else {
        calc {
          LastDone(a + b, parse);
          { assert (a + b)[..|a + b| - 1] == a + front; assert (a + b)[|a + b| - 1] == last; }
          LastDone(a + front, parse);
          { LastDoneAppend(a, front, parse); }
          if LastDone(front, parse).Some? then LastDone(front, parse) else LastDone(a, parse);
        }
      }
    }
  }

  /** A line that fails to parse, or carries an `error` event, is logged and
      does not stop the lines after it. */
  lemma LoggedLineDoesNotStop(a: seq<string>, bad: string, b: seq<string>, parse: Parser)
    requires Dispatch(bad, parse) == Logged
    ensures Yields(a + [bad] + b, parse) == Yields(a, parse) + Yields(b, parse)
    ensures LastDone(a + [bad] + b, parse) == (if LastDone(b, parse).Some? then LastDone(b, parse) else LastDone(a, parse))
  {
    var ab := a + [bad];
    assert ab[..|ab| - 1] == a && ab[|ab| - 1] == bad;
    assert Yields(ab, parse) == Yields(a, parse);
    assert LastDone(ab, parse) == LastDone(a, parse);
    YieldsAppend(ab, b, parse);
    LastDoneAppend(ab, b, parse);
  }

  // ---------------------------------------------------------------------------
  // The read loop's buffer

  /** The buffer state after `received` has been read: `processed` are its
      complete lines, `buffer` the rest, and what was yielded and kept is
      what those lines give. */
  ghost predicate Consistent(received: string, processed: seq<string>, buffer: string,
                             yielded: seq<StreamEvent>, finalData: Option<DoneRecord>, parse: Parser)
  {
    && NoNewline(buffer) && AllLines(processed)
    && Terminated(processed) + buffer == received
    && yielded == Yields(processed, parse)
    && finalData == LastDone(processed, parse)
  }

  /** One read keeps the buffer state consistent, and the lines it has
      handled are exactly the complete lines of the text so far. */
  lemma ReadStep(received: string, before: seq<string>, oldBuffer: string,
                 yielded: seq<StreamEvent>, finalData: Option<DoneRecord>, parse: Parser,
                 piece: string, lines: seq<string>, tail: string)
    requires Consistent(received, before, oldBuffer, yielded, finalData, parse)
    requires lines + [tail] == Split(oldBuffer + piece)
    ensures Consistent(received + piece, before + lines, tail, yielded + Yields(lines, parse),
                       if LastDone(lines, parse).Some? then LastDone(lines, parse) else finalData, parse)
    ensures before + lines == CompleteLines(received + piece) && tail == Remainder(received + piece)
  {
    SplitSpec(oldBuffer + piece);
    assert AllLines(before + lines) && NoNewline(tail) by {
      RegroupLines(before, lines, tail);
    }
    calc {
      Terminated(before + lines) + tail;
      { RegroupText(before, oldBuffer + piece, lines, tail); }
      Terminated(before) + (oldBuffer + piece);
      (Terminated(before) + oldBuffer) + piece;
      received + piece;
    }
    assert Yields(before + lines, parse) == yielded + Yields(lines, parse) by {
      YieldsAppend(before, lines, parse);
    }
    assert LastDone(before + lines, parse)
           == if LastDone(lines, parse).Some? then LastDone(lines, parse) else finalData by {
      LastDoneAppend(before, lines, parse);
    }
    LinesDetermined(before + lines, tail, received + piece);
  }

  /** The state `streamMessageToClaud` keeps across reads: the incomplete
      tail `buffer`, the kept `finalData`, and what it has yielded so far.
      `received` (all text decoded so far) and `processed` (the lines handled
      so far) are the proof's view of the stream. */
  class SseBuffer {
    const parse: Parser
    var buffer: string
    var finalData: Option<DoneRecord>
    var yielded: seq<StreamEvent>
    ghost var received: string
    ghost var processed: seq<string>

    /** Every processed line was complete and handled exactly once, in order:
        the processed lines, each with its newline, followed by the buffer,
        are all the text received. */
    ghost predicate Valid()
      reads this
    {
      Consistent(received, processed, buffer, yielded, finalData, parse)
    }

    constructor (parse: Parser)
      ensures Valid() && this.parse == parse
      ensures received == "" && processed == [] && buffer == "" && yielded == [] && finalData == None
    {
      this.parse := parse;
      buffer, finalData, yielded := "", None, [];
      received, processed := "", [];
    }

    /** One pass of the read loop: append the decoded piece, split, keep the
        last piece as the new buffer and dispatch the other lines in order. */
    method Read(piece: string)
      requires Valid()
      modifies this
      ensures Valid()
      ensures received == old(received) + piece
      ensures processed == CompleteLines(received) && buffer == Remainder(received)
      ensures yielded == Yields(CompleteLines(received), parse)
      ensures finalData == LastDone(CompleteLines(received), parse)
    {
      ghost var before, oldBuffer, oldReceived := processed, buffer, received;
      buffer := buffer + piece;
      var lines := Split(buffer);
      buffer := lines[|lines| - 1];
      lines := lines[..|lines| - 1];
      ReadStep(oldReceived, before, oldBuffer, yielded, finalData, parse, piece, lines, buffer);
      yielded, finalData := DispatchLines(lines, parse, yielded, finalData);
      received, processed := oldReceived + piece, before + lines;
    }
  }

  /** The inner `for (const line of lines)` loop: handles the complete lines
      of one read in order, adding chunks to those yielded before and
      replacing the kept `done` record. */
  method DispatchLines(lines: seq<string>, parse: Parser, chunks0: seq<StreamEvent>, done0: Option<DoneRecord>)
    returns (chunks: seq<StreamEvent>, done: Option<DoneRecord>)
    ensures chunks == chunks0 + Yields(lines, parse)
    ensures done == if LastDone(lines, parse).Some? then LastDone(lines, parse) else done0
  {
    chunks, done := chunks0, done0;
    for k := 0 to |lines|
      invariant chunks == chunks0 + Yields(lines[..k], parse)
      invariant done == if LastDone(lines[..k], parse).Some? then LastDone(lines[..k], parse) else done0
    {
      var line := lines[k];
      LineStep(lines[..k], line, parse);
      assert lines[..k + 1] == lines[..k] + [line];
      if StartsWith(line, "data: ") {
        var data := line[6..];
        if !IsBlank(data) {
          var parsed := parse(data);
          if parsed.Some? {
            match parsed.value
            case ChunkData(t) => chunks := chunks + [Chunk(t)];
            case DoneData(d) => done := Some(d);
            case ErrorData(_) =>
            case OtherData =>
          }
        }
      }
    }
    assert lines[..|lines|] == lines;
  }

  /** Handling one more line adds its chunk, if any, and replaces the kept
      record when it is a `done`. */
  lemma LineStep(lines: seq<string>, line: string, parse: Parser)
    ensures Yields(lines + [line], parse) == Yields(lines, parse) + YieldOf(Dispatch(line, parse))
    ensures LastDone(lines + [line], parse)
            == if Dispatch(line, parse).Keep? then Some(Dispatch(line, parse).record) else LastDone(lines, parse)
  {
    assert (lines + [line])[..|lines|] == lines;
  }

  /** After a read, the lines handled before and the lines just split off
      are all newline-free, and so is the new buffer. */
  lemma RegroupLines(before: seq<string>, lines: seq<string>, tail: string)
    requires AllLines(before) && AllLines(lines + [tail])
    ensures AllLines(before + lines) && NoNewline(tail)
  {
    var parts := lines + [tail];
    assert forall i :: 0 <= i < |lines| ==> lines[i] == parts[i];
    assert tail == parts[|parts| - 1];
  }

  /** After a read, the lines handled before, the lines just split off and the
      new buffer still make up all the text received. */
  lemma RegroupText(before: seq<string>, text: string, lines: seq<string>, tail: string)
    requires Join(lines + [tail]) == text
    ensures Terminated(before + lines) + tail == Terminated(before) + text
  {
    calc {
      Terminated(before + lines) + tail;
      { TerminatedAppend(before, lines); }
      Terminated(before) + Terminated(lines) + tail;
      Terminated(before) + (Terminated(lines) + tail);
      { TerminatedJoin(lines, tail); }
      Terminated(before) + text;
    }
  }

  // ---------------------------------------------------------------------------
  // The generator

  /** The outcome of the `fetch`: a network failure, or a response with its
      `ok` flag, its status, the decoded body pieces and the error, if any,
      that a later `reader.read()` throws. */
  datatype HttpReply =
    | FetchFailed(message: string)
    | HttpResponse(ok: bool, status: nat, body: seq<string>, readError: Option<string>)

  /** What the generator yields, and the error it finally throws, if any. */
  datatype Emission = Emission(events: seq<StreamEvent>, failure: Option<string>)

  function Concat(pieces: seq<string>): string {
    if pieces == [] then "" else Concat(pieces[..|pieces| - 1]) + pieces[|pieces| - 1]
  }

  const FallbackError: string := "Failed to get response from Claude"

  /** The outer `catch` rethrows `new Error(error.message || ...)`. */
  function Rethrown(message: string): string {
    if message == "" then FallbackError else message
  }

  function DoneTail(d: Option<DoneRecord>): seq<StreamEvent> {
    if d.Some? then [Done(d.value)] else []
  }

  /** What `streamMessageToClaud` yields for a reply: nothing and an error for
      a failed fetch or a non-`ok` status; otherwise the chunks of the
      complete lines of all text read, in order, then, when the body ended
      without an error, the last `done` record, if any. */
  function Emitted(reply: HttpReply, parse: Parser): Emission {
    match reply
    case FetchFailed(m) => Emission([], Some(Rethrown(m)))
    case HttpResponse(ok, status, body, readError) =>
      if !ok then Emission([], Some("HTTP error! status: " + NatToString(status)))
      else
        var lines := CompleteLines(Concat(body));
        if readError.Some? then Emission(Yields(lines, parse), Some(Rethrown(readError.value)))
        else Emission(Yields(lines, parse) + DoneTail(LastDone(lines, parse)), None)
  }

  /** `streamMessageToClaud(previousMessages, newContent, image)`: returns the
      payload it posted and what it yielded. Whatever pieces the body arrives
      in, the result depends only on their concatenation. */
  method StreamMessageToClaude(previous: seq<MessageRecord>, newContent: string, image: Option<Image>,
                               server: Payload -> HttpReply, parse: Parser)
    returns (sent: Payload, emission: Emission)
    ensures sent == BuildPayload(previous, newContent, image)
    ensures emission == Emitted(server(sent), parse)
  {
    sent := BuildPayload(previous, newContent, image);
    var reply := server(sent);
    if reply.FetchFailed? {
      return sent, Emission([], Some(Rethrown(reply.message)));
    }
    if !reply.ok {
      return sent, Emission([], Some(Rethrown("HTTP error! status: " + NatToString(reply.status))));
    }
    var reader := new SseBuffer(parse);
    var i := 0;
    while i < |reply.body|
      invariant 0 <= i <= |reply.body|
      invariant reader.Valid() && reader.parse == parse
      invariant reader.received == Concat(reply.body[..i])
    {
      reader.Read(reply.body[i]);
      assert reply.body[..i + 1][..i] == reply.body[..i];
      i := i + 1;
    }
    assert reply.body[..i] == reply.body;
    LinesDetermined(reader.processed, reader.buffer, reader.received);
    if reply.readError.Some? {
      return sent, Emission(reader.yielded, Some(Rethrown(reply.readError.value)));
    }
    var events := reader.yielded;
    if reader.finalData.Some? {
      events := events + [Done(reader.finalData.value)];
    }
    emission := Emission(events, None);
  }

  // ---------------------------------------------------------------------------
  // The fold

  /** `finalResponse || { content: fullContent }`. */
  datatype Reply = DoneReply(record: DoneRecord) | TextReply(text: string) {
    function Content(): string {
      if DoneReply? then record.content else text
    }
    function Thinking(): Option<string> {
      if DoneReply? then record.thinking else None
    }
  }

  /** The chunk texts of a run of events, concatenated. */
  function ChunkText(events: seq<StreamEvent>): string {
    if events == [] then ""
    else ChunkText(events[..|events| - 1]) + (if events[|events| - 1].Chunk? then events[|events| - 1].text else "")
  }

  /** The last `done` event of a run of events. */
  function LastDoneIn(events: seq<StreamEvent>): Option<DoneRecord> {
    if events == [] then None
    else if events[|events| - 1].Done? then Some(events[|events| - 1].record)
    else LastDoneIn(events[..|events| - 1])
  }

  function FoldReply(events: seq<StreamEvent>): Reply {
    if LastDoneIn(events).Some? then DoneReply(LastDoneIn(events).value) else TextReply(ChunkText(events))
  }

  /** What `sendMessageToClaud` resolves to, or the error it rejects with. */
  function ReplyFor(previous: seq<MessageRecord>, newContent: string, image: Option<Image>,
                    server: Payload -> HttpReply, parse: Parser): Result<Reply>
  {
    var e := Emitted(server(BuildPayload(previous, newContent, image)), parse);
    if e.failure.Some? then Failure(e.failure.value) else Success(FoldReply(e.events))
  }

  /** `sendMessageToClaud`: folds the stream, concatenating chunk texts and
      keeping the last `done` event, and rethrows the stream's error. */
  method SendMessageToClaude(previous: seq<MessageRecord>, newContent: string, image: Option<Image>,
                             server: Payload -> HttpReply, parse: Parser)
    returns (r: Result<Reply>)
    ensures r == ReplyFor(previous, newContent, image, server, parse)
  {
    var fullContent := "";
    var finalResponse: Option<DoneRecord> := None;
    var sent, emission := StreamMessageToClaude(previous, newContent, image, server, parse);
    var events := emission.events;
    for i := 0 to |events|
      invariant fullContent == ChunkText(events[..i])
      invariant finalResponse == LastDoneIn(events[..i])
    {
      assert events[..i + 1][..i] == events[..i];
      match events[i]
      case Chunk(t) => fullContent := fullContent + t;
      case Done(d) => finalResponse := Some(d);
    }
    assert events[..|events|] == events;
    if emission.failure.Some? {
      return Failure(emission.failure.value);
    }
    r := Success(if finalResponse.Some? then DoneReply(finalResponse.value) else TextReply(fullContent));
  }

  // ---------------------------------------------------------------------------
  // Properties of the whole stream

  lemma {:induction false} NoDoneAmongChunks(events: seq<StreamEvent>)
    requires forall i :: 0 <= i < |events| ==> events[i].Chunk?
    ensures LastDoneIn(events) == None
  {
    if events != [] {
      NoDoneAmongChunks(events[..|events| - 1]);
    }
  }

  /** The reply is the last `done` record when one arrived, and otherwise the
      concatenation of every chunk text. */
  lemma ReplyIsDoneOrChunks(lines: seq<string>, parse: Parser)
    ensures FoldReply(Yields(lines, parse) + DoneTail(LastDone(lines, parse)))
            == if LastDone(lines, parse).Some? then DoneReply(LastDone(lines, parse).value)
               else TextReply(ChunkText(Yields(lines, parse)))
  {
    var ys := Yields(lines, parse);
    YieldsAreChunks(lines, parse);
    NoDoneAmongChunks(ys);
    var all := ys + DoneTail(LastDone(lines, parse));
    if LastDone(lines, parse).Some? {
      assert all[|all| - 1].Done?;
    } else {
      assert all == ys;
    }
  }

  /** The stream yields a `done` at most once, and only as its last event. */
  lemma DoneOnlyLast(reply: HttpReply, parse: Parser)
    ensures var es := Emitted(reply, parse).events;
            forall i :: 0 <= i < |es| && es[i].Done? ==> i == |es| - 1
  {
    if reply.HttpResponse? && reply.ok {
      YieldsAreChunks(CompleteLines(Concat(reply.body)), parse);
    }
  }

  /** Text after the last newline is never dispatched: appending a
      newline-free piece to a body that ends at a line boundary changes
      nothing the stream yields. */
  lemma UnterminatedTailIgnored(status: nat, body: seq<string>, tail: string, parse: Parser)
    requires NoNewline(tail)
    requires Remainder(Concat(body)) == ""
    ensures Emitted(HttpResponse(true, status, body + [tail], None), parse)
            == Emitted(HttpResponse(true, status, body, None), parse)
  {
    var s := Concat(body);
    assert (body + [tail])[..|body|] == body;
    assert Concat(body + [tail]) == s + tail;
    LinesAndRemainder(s);
    assert Terminated(CompleteLines(s)) + tail == s + tail;
    LinesDetermined(CompleteLines(s), tail, s + tail);
  }

  /** A body that holds no complete `data: ` line, such as a single JSON
      object, makes the reply an empty text. */
  lemma NoDataLinesEmptyReply(previous: seq<MessageRecord>, newContent: string, image: Option<Image>,
                              server: Payload -> HttpReply, parse: Parser)
    requires var r := server(BuildPayload(previous, newContent, image));
             && r.HttpResponse? && r.ok && r.readError.None?
             && forall l :: l in CompleteLines(Concat(r.body)) ==> !StartsWith(l, DataPrefix)
    ensures ReplyFor(previous, newContent, image, server, parse) == Success(TextReply(""))
  {
    var r := server(BuildPayload(previous, newContent, image));
    var lines := CompleteLines(Concat(r.body));
    NothingDispatched(lines, parse);
    ReplyIsDoneOrChunks(lines, parse);
  }

  lemma {:induction false} NothingDispatched(lines: seq<string>, parse: Parser)
    requires forall l :: l in lines ==> !StartsWith(l, DataPrefix)
    ensures Yields(lines, parse) == [] && LastDone(lines, parse) == None
  {
    if lines != [] {
      NothingDispatched(lines[..|lines| - 1], parse);
      assert lines[|lines| - 1] in lines;
    }
  }
}

/** The HTTP function `chat`: validates the JSON body, applies defaults,
    rebuilds the conversation as content blocks (an image block on the last
    turn only, cache markers on older assistant turns), adds the system
    block, streams the model's reply, folds the event stream into answer
    text, thinking text and chunks, and answers with one JSON object or an
    error status.

    The model client is a parameter (`api`): it maps the message options to
    the events of the stream, the usage snapshot and the exception, if any,
    raised while streaming. */
module ChatFunction {
  import opened Common

  // ---------------------------------------------------------------------------
  // The request

  /** One entry of `messages`; a key absent from the object is `None`. */
  datatype InMessage = InMessage(role: Option<string>, content: Option<string>)

  /** The parsed JSON body; an absent key is `None`. `image` is the `image`
      object with its string fields. */
  datatype ChatRequest = ChatRequest(messages: Option<seq<InMessage>>, image: Option<map<string, string>>,
                                     systemPrompt: Option<string>, useCache: Option<bool>,
                                     maxTokens: Option<int>)

  const Model: string := "claude-opus-4@20250514"
  const DefaultMaxTokens: int := 8192
  const ThinkingBudget: int := 6553

  /** `str(KeyError(key))`. */
  function KeyErrorText(key: string): string {
    "'" + key + "'"
  }

  /** A Python dict is truthy exactly when it is not empty. */
  predicate TruthyImage(image: Option<map<string, string>>) {
    image.Some? && image.value != map[]
  }

  // ---------------------------------------------------------------------------
  // Content blocks

  /** A `text` block, with `cache_control: {type: 'ephemeral'}` when `cached`,
      or an `image` block with a base64 `source`. */
  datatype Block = TextBlock(text: string, cached: bool) | ImageBlock(mediaType: string, data: string)

  datatype ApiMessage = ApiMessage(role: string, content: seq<Block>)

  /** The keyword arguments of `client.messages.stream`; `system` is the
      one-block list, when present. */
  datatype MessageOptions = MessageOptions(maxTokens: int, messages: seq<ApiMessage>, model: string,
                                           thinkingBudget: int, system: Option<Block>)

  /** Entry `i` of `n`: the last entry with a (truthy) image becomes
      `[image, text]`, any other entry one text block, cached when caching is
      on, the role is `assistant` and at least two entries follow. A missing
      key raises `KeyError`, in the order the dict literals read them. */
  function Convert(i: nat, n: nat, msg: InMessage, image: Option<map<string, string>>, useCache: bool): Result<ApiMessage> {
    if i == n - 1 && TruthyImage(image) then
      var img := image.value;
      if "media_type" !in img then Failure(KeyErrorText("media_type"))
      else if "data" !in img then Failure(KeyErrorText("data"))
      else if msg.content.None? then Failure(KeyErrorText("content"))
      else if msg.role.None? then Failure(KeyErrorText("role"))
      else Success(ApiMessage(msg.role.value, [ImageBlock(img["media_type"], img["data"]), TextBlock(msg.content.value, false)]))
    else
      if msg.content.None? then Failure(KeyErrorText("content"))
      else if msg.role.None? then Failure(KeyErrorText("role"))
      else
        var cached := useCache && msg.role.value == "assistant" && i < n - 2;
        Success(ApiMessage(msg.role.value, [TextBlock(msg.content.value, cached)]))
  }

  /** The messages built for the first `k` entries, or the first error. */
  function BuiltUpTo(msgs: seq<InMessage>, k: nat, image: Option<map<string, string>>, useCache: bool): Result<seq<ApiMessage>>
    requires k <= |msgs|
  {
    if k == 0 then Success([])
    else match BuiltUpTo(msgs, k - 1, image, useCache)
      case Failure(e) => Failure(e)
      case Success(prefix) =>
        match Convert(k - 1, |msgs|, msgs[k - 1], image, useCache)
        case Failure(e) => Failure(e)
        case Success(m) => Success(prefix + [m])
  }

  /** The `for i, msg in enumerate(messages)` loop. */
  method BuildMessages(msgs: seq<InMessage>, image: Option<map<string, string>>, useCache: bool)
    returns (r: Result<seq<ApiMessage>>)
    ensures r == BuiltUpTo(msgs, |msgs|, image, useCache)
  {
    var all: seq<ApiMessage> := [];
    for i := 0 to |msgs|
      invariant BuiltUpTo(msgs, i, image, useCache) == Success(all)
    {
      var m := Convert(i, |msgs|, msgs[i], image, useCache);
      if m.Failure? {
        FailureKept(msgs, i + 1, |msgs|, image, useCache);
        return Failure(m.error);
      }
      all := all + [m.value];
    }
    r := Success(all);
  }

  /** Once an entry fails, building the longer prefixes fails the same way. */
  lemma {:induction false} FailureKept(msgs: seq<InMessage>, i: nat, k: nat, image: Option<map<string, string>>, useCache: bool)
    requires i <= k <= |msgs| && BuiltUpTo(msgs, i, image, useCache).Failure?
    ensures BuiltUpTo(msgs, k, image, useCache) == BuiltUpTo(msgs, i, image, useCache)
    decreases k
  {
    if k > i {
      FailureKept(msgs, i, k - 1, image, useCache);
    }
  }

  /** When building succeeds, entry `i` of the result is entry `i` converted,
      in the same order and with the same length. */
  lemma {:induction false} BuiltEntries(msgs: seq<InMessage>, k: nat, image: Option<map<string, string>>, useCache: bool)
    requires k <= |msgs| && BuiltUpTo(msgs, k, image, useCache).Success?
    ensures |BuiltUpTo(msgs, k, image, useCache).value| == k
    ensures forall i :: 0 <= i < k ==>
              Convert(i, |msgs|, msgs[i], image, useCache) == Success(BuiltUpTo(msgs, k, image, useCache).value[i])
  {
    if k > 0 {
      BuiltEntries(msgs, k - 1, image, useCache);
    }
  }

  /** Building fails exactly when some entry fails, and then with the error
      of the first such entry. */
  lemma {:induction false} BuiltFailure(msgs: seq<InMessage>, k: nat, image: Option<map<string, string>>, useCache: bool)
    requires k <= |msgs|
    ensures BuiltUpTo(msgs, k, image, useCache).Failure? <==>
              exists i :: 0 <= i < k && Convert(i, |msgs|, msgs[i], image, useCache).Failure?
    ensures BuiltUpTo(msgs, k, image, useCache).Failure? ==>
              exists i :: 0 <= i < k && Convert(i, |msgs|, msgs[i], image, useCache) == Failure(BuiltUpTo(msgs, k, image, useCache).error)
                          && forall j :: 0 <= j < i ==> Convert(j, |msgs|, msgs[j], image, useCache).Success?
  {
    if k > 0 {
      BuiltFailure(msgs, k - 1, image, useCache);
      if BuiltUpTo(msgs, k - 1, image, useCache).Success? {
        BuiltEntries(msgs, k - 1, image, useCache);
      }
    }
  }

  /** A converted entry keeps the role and the content. The image block is
      present only on the last entry when an image was given, and comes
      before the text; every other entry is exactly one text block. A text
      block is cached exactly when caching is on, the role is `assistant` and
      at least two entries follow. */
  lemma ConvertShape(i: nat, n: nat, msg: InMessage, image: Option<map<string, string>>, useCache: bool)
    requires Convert(i, n, msg, image, useCache).Success?
    ensures var m := Convert(i, n, msg, image, useCache).value;
            && msg.role == Some(m.role)
            && (if i == n - 1 && TruthyImage(image)
                then m.content == [ImageBlock(image.value["media_type"], image.value["data"]),
                                   TextBlock(msg.content.value, false)]
                else m.content == [TextBlock(msg.content.value, useCache && m.role == "assistant" && i < n - 2)])
  {
  }

  /** The image's `media_type` is used as it comes: the browser sends
      `{url, type}`, so a request carrying that image fails with a `KeyError`
      on `media_type`. */
  lemma ClientImageRejected(msgs: seq<InMessage>, url: string, mimeType: string, useCache: bool)
    requires |msgs| > 0
    ensures BuiltUpTo(msgs, |msgs|, Some(map["url" := url, "type" := mimeType]), useCache).Failure?
  {
    var image := Some(map["url" := url, "type" := mimeType]);
    assert "url" in image.value;
    assert Convert(|msgs| - 1, |msgs|, msgs[|msgs| - 1], image, useCache) == Failure(KeyErrorText("media_type"));
    BuiltFailure(msgs, |msgs|, image, useCache);
  }

  // ---------------------------------------------------------------------------
  // Options

  /** `max_tokens` defaults to 8192 and caching to on; the model and the
      thinking budget are fixed; a `system` block is sent only for a truthy
      prompt, cached when caching is on. */
  function OptionsFor(req: ChatRequest, built: seq<ApiMessage>): (o: MessageOptions)
    ensures o.maxTokens == (if req.maxTokens.Some? then req.maxTokens.value else 8192)
    ensures o.messages == built && o.model == Model && o.thinkingBudget == 6553
    ensures o.system.Some? <==> TruthyText(req.systemPrompt)
    ensures o.system.Some? ==> o.system.value == TextBlock(req.systemPrompt.value, req.useCache != Some(false))
  {
    var useCache := if req.useCache.Some? then req.useCache.value else true;
    var maxTokens := if req.maxTokens.Some? then req.maxTokens.value else DefaultMaxTokens;
    var system := if TruthyText(req.systemPrompt) then Some(TextBlock(req.systemPrompt.value, useCache)) else None;
    MessageOptions(maxTokens, built, Model, ThinkingBudget, system)
  }

  // ---------------------------------------------------------------------------
  // The event fold

  /** A stream event as far as the fold looks at it: an event without a
      `type`, a block start with the type of its `content_block` (if it has
      one), a block delta with the `text` of its `delta` (if it has one), a
      block stop, or any other event type. */
  datatype ApiEvent = Untyped | BlockStart(blockType: Option<string>) | BlockDelta(text: Option<string>) | BlockStop | OtherEvent

  /** `full_response`, `thinking_content`, `is_thinking` and the texts of `chunks`. */
  datatype FoldState = FoldState(full: string, thinking: string, isThinking: bool, chunks: seq<string>)

  predicate IsThinkingStart(e: ApiEvent) {
    e == BlockStart(Some("thinking"))
  }

  function Step(st: FoldState, e: ApiEvent): FoldState {
    match e
    case BlockStart(t) => if t == Some("thinking") then st.(isThinking := true) else st
    case BlockDelta(t) =>
      if t.None? then st
      else if st.isThinking then st.(thinking := st.thinking + t.value)
      else st.(full := st.full + t.value, chunks := st.chunks + [t.value])
    case BlockStop => st.(isThinking := false)
    case _ => st
  }

  /** The state after a run of events. */
  function Fold(es: seq<ApiEvent>): FoldState {
    if es == [] then FoldState("", "", false, []) else Step(Fold(es[..|es| - 1]), es[|es| - 1])
  }

  /** The `for event in stream` loop. */
  method FoldEvents(es: seq<ApiEvent>) returns (full: string, thinking: string, chunks: seq<string>)
    ensures full == Fold(es).full && thinking == Fold(es).thinking && chunks == Fold(es).chunks
  {
    full, thinking, chunks := "", "", [];
    var isThinking := false;
    for k := 0 to |es|
      invariant Fold(es[..k]) == FoldState(full, thinking, isThinking, chunks)
    {
      assert es[..k + 1][..k] == es[..k];
      var event := es[k];
      if !event.Untyped? {
        if event.BlockStart? {
          if event.blockType.Some? && event.blockType.value == "thinking" {
            isThinking := true;
          }
        } else if event.BlockDelta? {
          if event.text.Some? {
            var text := event.text.value;
            if isThinking {
              thinking := thinking + text;
            } else {
              full := full + text;
              chunks := chunks + [text];
            }
          }
        } else if event.BlockStop? {
          if isThinking {
            isThinking := false;
          }
        }
      }
    }
    assert es[..|es|] == es;
  }

  function ConcatAll(ss: seq<string>): string {
    if ss == [] then "" else ConcatAll(ss[..|ss| - 1]) + ss[|ss| - 1]
  }

  /** The answer text is the concatenation of the chunk texts. */
  lemma {:induction false} FullIsChunks(es: seq<ApiEvent>)
    ensures Fold(es).full == ConcatAll(Fold(es).chunks)
  {
    if es != [] {
      var st := Fold(es[..|es| - 1]);
      FullIsChunks(es[..|es| - 1]);
      var e := es[|es| - 1];
      if e.BlockDelta? && e.text.Some? && !st.isThinking {
        calc {
          ConcatAll(st.chunks + [e.text.value]);
          { assert (st.chunks + [e.text.value])[..|st.chunks|] == st.chunks; }
          ConcatAll(st.chunks) + e.text.value;
        }
      }
    }
  }

  /** Inside a thinking block: some thinking block start has been seen and no
      block stop after it. */
  predicate InThinking(es: seq<ApiEvent>) {
    exists j :: 0 <= j < |es| && IsThinkingStart(es[j]) && forall k :: j < k < |es| ==> !es[k].BlockStop?
  }

  /** The fold's `is_thinking` flag is set exactly inside a thinking block. */
  lemma {:induction false} FlagIsInThinking(es: seq<ApiEvent>)
    ensures Fold(es).isThinking <==> InThinking(es)
  {
    if es != [] {
      var front, e := es[..|es| - 1], es[|es| - 1];
      FlagIsInThinking(front);
      assert forall k :: 0 <= k < |front| ==> front[k] == es[k];
      if IsThinkingStart(e) {
        assert InThinking(es) by { assert IsThinkingStart(es[|es| - 1]); }
      } else if e.BlockStop? {
        forall j | 0 <= j < |es| && IsThinkingStart(es[j])
          ensures j < |es| - 1 && es[|es| - 1].BlockStop?
        {
          assert es[j] != es[|es| - 1];
        }
      } else {
        if InThinking(front) {
          var j :| 0 <= j < |front| && IsThinkingStart(front[j]) && forall k :: j < k < |front| ==> !front[k].BlockStop?;
          assert IsThinkingStart(es[j]) && forall k :: j < k < |es| ==> !es[k].BlockStop?;
        }
        if InThinking(es) {
          var j :| 0 <= j < |es| && IsThinkingStart(es[j]) && forall k :: j < k < |es| ==> !es[k].BlockStop?;
          assert j < |front|;
          assert IsThinkingStart(front[j]) && forall k :: j < k < |front| ==> !front[k].BlockStop?;
        }
      }
    }
  }

  /** The texts of the deltas that arrive inside (`inside`) or outside a
      thinking block, concatenated in order. */
  function Selected(es: seq<ApiEvent>, inside: bool): string {
    if es == [] then ""
    else
      var front, e := es[..|es| - 1], es[|es| - 1];
      Selected(front, inside) + (if e.BlockDelta? && e.text.Some? && InThinking(front) == inside then e.text.value else "")
  }

  /** The thinking text collects exactly the deltas inside thinking blocks,
      and the answer text all the others. */
  lemma {:induction false} FoldPartition(es: seq<ApiEvent>)
    ensures Fold(es).thinking == Selected(es, true)
    ensures Fold(es).full == Selected(es, false)
  {
    if es != [] {
      var front := es[..|es| - 1];
      FoldPartition(front);
      FlagIsInThinking(front);
    }
  }

  // ---------------------------------------------------------------------------
  // The response

  /** A usage attribute of the final message snapshot: absent, or present with
      its value (which may be `None`). */
  datatype UsageAttr = Absent | Present(value: Option<int>)

  datatype UsageSnapshot = UsageSnapshot(inputTokens: Option<int>, outputTokens: Option<int>,
                                         cacheCreation: UsageAttr, cacheRead: UsageAttr)

  /** What the client gives for the options: an exception before any event,
      or the events, the exception (if any) raised while iterating them, and
      the usage snapshot afterwards. */
  datatype ApiOutcome =
    | ApiFailed(message: string)
    | ApiStream(events: seq<ApiEvent>, failure: Option<string>, usage: UsageSnapshot)

  datatype ChatResponse =
    | Completed(content: string, thinking: Option<string>, usage: map<string, Option<int>>,
                chunks: seq<string>, cached: bool)
    | ErrorResponse(error: string, status: int)

  /** The `usage` dict: input and output tokens, and each cache figure whose
      attribute exists. */
  function UsageOf(u: UsageSnapshot): (m: map<string, Option<int>>)
    ensures "input_tokens" in m && m["input_tokens"] == u.inputTokens
    ensures "output_tokens" in m && m["output_tokens"] == u.outputTokens
    ensures "cache_creation_tokens" in m <==> u.cacheCreation.Present?
    ensures "cache_read_tokens" in m <==> u.cacheRead.Present?
    ensures u.cacheRead.Present? ==> m["cache_read_tokens"] == u.cacheRead.value
    ensures forall k :: k in m ==> k in {"input_tokens", "output_tokens", "cache_creation_tokens", "cache_read_tokens"}
  {
    var base := map["input_tokens" := u.inputTokens, "output_tokens" := u.outputTokens];
    var withCreation := if u.cacheCreation.Present? then base["cache_creation_tokens" := u.cacheCreation.value] else base;
    if u.cacheRead.Present? then withCreation["cache_read_tokens" := u.cacheRead.value] else withCreation
  }

  const MessagesRequired: string := "Messages are required"

  /** The response for a body (`None` when it is not JSON), given the client. */
  function ChatResult(body: Option<ChatRequest>, api: MessageOptions -> ApiOutcome): ChatResponse {
    if body.None? || body.value.messages.None? then ErrorResponse(MessagesRequired, 400)
    else
      var req := body.value;
      var useCache := if req.useCache.Some? then req.useCache.value else true;
      match BuiltUpTo(req.messages.value, |req.messages.value|, req.image, useCache)
      case Failure(e) => ErrorResponse(e, 500)
      case Success(built) =>
        match api(OptionsFor(req, built))
        case ApiFailed(e) => ErrorResponse(e, 500)
        case ApiStream(events, failure, usage) =>
          if failure.Some? then ErrorResponse(failure.value, 500)
          else
            var st := Fold(events);
            var u := UsageOf(usage);
            Completed(st.full, if st.thinking == "" then None else Some(st.thinking), u, st.chunks,
                      "cache_read_tokens" in u)
  }

  /** The handler for a POST request. */
  method Chat(body: Option<ChatRequest>, api: MessageOptions -> ApiOutcome) returns (r: ChatResponse)
    ensures r == ChatResult(body, api)
  {
    if body.None? || body.value.messages.None? {
      return ErrorResponse(MessagesRequired, 400);
    }
    var req := body.value;
    var messages := req.messages.value;
    var image := req.image;
    var useCache := if req.useCache.Some? then req.useCache.value else true;
    var built := BuildMessages(messages, image, useCache);
    if built.Failure? {
      return ErrorResponse(built.error, 500);
    }
    var options := OptionsFor(req, built.value);
    var outcome := api(options);
    if outcome.ApiFailed? {
      return ErrorResponse(outcome.message, 500);
    }
    var full, thinking, chunks := FoldEvents(outcome.events);
    if outcome.failure.Some? {
      return ErrorResponse(outcome.failure.value, 500);
    }
    var usage := UsageOf(outcome.usage);
    r := Completed(full, if thinking != "" then Some(thinking) else None, usage, chunks, "cache_read_tokens" in usage);
  }

  /** A body that is not JSON, or has no `messages` key, is refused with 400
      before the client is called. */
  lemma BadRequest(body: Option<ChatRequest>, api: MessageOptions -> ApiOutcome)
    ensures ChatResult(body, api) == ErrorResponse(MessagesRequired, 400) <==> body.None? || body.value.messages.None?
    ensures ChatResult(body, api).ErrorResponse? && ChatResult(body, api).status == 400
            <==> body.None? || body.value.messages.None?
  {
  }

  /** Past the 400 check every exception is caught and answered with 500 and
      its message: a message the builder cannot convert, a call the client
      refuses, and an exception raised while the stream is read. Every
      other answer is a completed response. */
  lemma ExceptionIs500(req: ChatRequest, api: MessageOptions -> ApiOutcome)
    requires req.messages.Some?
    ensures var useCache := if req.useCache.Some? then req.useCache.value else true;
            var built := BuiltUpTo(req.messages.value, |req.messages.value|, req.image, useCache);
            var r := ChatResult(Some(req), api);
            && (built.Failure? ==> r == ErrorResponse(built.error, 500))
            && (built.Success? && api(OptionsFor(req, built.value)).ApiFailed? ==>
                  r == ErrorResponse(api(OptionsFor(req, built.value)).message, 500))
            && (built.Success? && api(OptionsFor(req, built.value)).ApiStream? && api(OptionsFor(req, built.value)).failure.Some? ==>
                  r == ErrorResponse(api(OptionsFor(req, built.value)).failure.value, 500))
            && (r.ErrorResponse? ==> r.status == 500)
            && (r.Completed? <==> built.Success? && api(OptionsFor(req, built.value)).ApiStream?
                                  && api(OptionsFor(req, built.value)).failure.None?)
  {
  }

  /** A completed response reports thinking only when some thinking text was
      collected, marks it cached exactly when the cache-read figure exists,
      and its content is the concatenation of its chunks. */
  lemma CompletedShape(body: Option<ChatRequest>, api: MessageOptions -> ApiOutcome)
    requires ChatResult(body, api).Completed?
    ensures var r := ChatResult(body, api);
            && (r.thinking.Some? ==> r.thinking.value != "")
            && r.content == ConcatAll(r.chunks)
            && (r.cached <==> "cache_read_tokens" in r.usage)
  {
    var req := body.value;
    var useCache := if req.useCache.Some? then req.useCache.value else true;
    var built := BuiltUpTo(req.messages.value, |req.messages.value|, req.image, useCache).value;
    FullIsChunks(api(OptionsFor(req, built)).events);
  }

  /** For a stream that ends without an exception, the answer is the text of
      the deltas outside thinking blocks, the thinking the text of those
      inside (or `None` when there is none), and the usage and cache flag
      come from the final snapshot. */
  lemma StreamedResponse(req: ChatRequest, api: MessageOptions -> ApiOutcome, built: seq<ApiMessage>,
                         events: seq<ApiEvent>, usage: UsageSnapshot)
    requires req.messages.Some?
    requires BuiltUpTo(req.messages.value, |req.messages.value|, req.image,
                       if req.useCache.Some? then req.useCache.value else true) == Success(built)
    requires api(OptionsFor(req, built)) == ApiStream(events, None, usage)
    ensures ChatResult(Some(req), api)
            == Completed(Selected(events, false),
                         if Selected(events, true) == "" then None else Some(Selected(events, true)),
                         UsageOf(usage), Fold(events).chunks, usage.cacheRead.Present?)
  {
    FoldPartition(events);
  }
}

/** The local OpenAI-compatible HTTP server: its lifecycle state machine, the
    listening-port rule, the route handlers and the server-sent-event framing
    of streamed chat completions. */
module Gateway {
  import opened Common
  import opened Wire
  import opened ModelSession
  import Settings

  // ------------------------------------------------------------ lifecycle

  datatype ServerState = Stopped | Starting | Running | Error(message: string) {
    predicate IsStartingOrRunning() {
      Starting? || Running?
    }

    predicate IsError() {
      Error?
    }
  }

  const InactiveAddress := "Inactive"
  const FallbackPort: nat := 8080
  const StartFailedPrefix := "Server start/run failed: "

  /** The port the server listens on for a stored setting: the setting when
      above 1024, otherwise 8080. */
  function ListenPort(stored: int): (port: nat)
    ensures port > 1024
  {
    if stored > 1024 then stored else FallbackPort
  }

  /** The port the server configures from the settings store. */
  function ConfiguredPort(values: map<string, Settings.StoredValue>): nat {
    ListenPort(Settings.IntegerFor(values, Settings.ServerPortKey))
  }

  /** Privileged and non-positive settings fall back to 8080, the others are
      kept, and the rule is idempotent. */
  lemma ListenPortRule(stored: int)
    ensures stored > 1024 ==> ListenPort(stored) == stored
    ensures stored <= 1024 ==> ListenPort(stored) == FallbackPort
    ensures ListenPort(ListenPort(stored)) == ListenPort(stored)
  {
  }

  /** The settings screen and the server disagree on ports 1..1024: the
      settings keep such a port, while the server listens on 8080 instead. */
  lemma SettingsKeepPortServerReplaces(values: map<string, Settings.StoredValue>, port: int)
    requires 0 < port <= 1024
    ensures Settings.InitialPort(values[Settings.ServerPortKey := Settings.IntValue(port)]) == port
    ensures ConfiguredPort(values[Settings.ServerPortKey := Settings.IntValue(port)]) == FallbackPort
  {
  }

  /** A port above 1024 chosen in the settings is the one the server listens on. */
  lemma SettingsPortReachesServer(values: map<string, Settings.StoredValue>, port: int)
    requires port > 1024
    ensures ConfiguredPort(values[Settings.ServerPortKey := Settings.IntValue(port)]) == port
    ensures Settings.InitialPort(values[Settings.ServerPortKey := Settings.IntValue(port)]) == port
  {
  }

  /** The displayed address: the en0 IPv4 address, or "localhost" without
      one, and the listening port. */
  function ServerAddress(ip: Option<string>, port: nat): string {
    "http://" + ip.GetOr("localhost") + ":" + Decimal(port)
  }

  /** The address names the host and ends with the port's digits, which read
      back as the port. */
  lemma ServerAddressCarriesPort(ip: Option<string>, port: nat)
    ensures var a := ServerAddress(ip, port);
            var host := ip.GetOr("localhost");
            var digits := Decimal(port);
            |a| == 8 + |host| + |digits| && a[..7] == "http://" && a[7..7 + |host|] == host
            && a[7 + |host|] == ':' && a[|a| - |digits|..] == digits
            && AllDigits(a[|a| - |digits|..]) && DecimalValue(a[|a| - |digits|..]) == port
  {
    var a := ServerAddress(ip, port);
    var host := ip.GetOr("localhost");
    var digits := Decimal(port);
    assert a == "http://" + host + ":" + digits;
    assert a[|a| - |digits|..] == digits;
    DecimalRoundTrip(port);
  }

  /** The configured Vapor application, reduced to the port it listens on. */
  datatype Application = Application(port: nat)

  class ServerManager {
    var serverState: ServerState
    var serverAddress: string
    var app: Option<Application>
    const modelManager: ModelManager
    const defaults: Settings.Defaults

    /** A stopped server shows no address; a running one has an application. */
    ghost predicate Valid()
      reads this
    {
      && (serverState == Stopped ==> serverAddress == InactiveAddress)
      && (serverState == Running ==> app.Some?)
    }

    constructor (modelManager: ModelManager, defaults: Settings.Defaults)
      ensures Valid()
      ensures serverState == Stopped && serverAddress == InactiveAddress && app == None
      ensures this.modelManager == modelManager && this.defaults == defaults
    {
      serverState := Stopped;
      serverAddress := InactiveAddress;
      app := None;
      this.modelManager := modelManager;
      this.defaults := defaults;
    }

    /** The synchronous part of `startServer`: a no-op while starting or
        running; otherwise the state becomes starting and the server task is
        launched. An error state may be restarted. */
    method StartServer() returns (launched: bool)
      requires Valid()
      modifies this
      ensures Valid()
      ensures launched <==> !old(serverState).IsStartingOrRunning()
      ensures serverState == if launched then Starting else old(serverState)
      ensures serverAddress == old(serverAddress) && app == old(app)
    {
      if serverState.IsStartingOrRunning() {
        return false;
      }
      serverState := Starting;
      launched := true;
    }

    /** The server task once the application is configured: the port comes
        from the settings store, and the state becomes running with the
        application and its address recorded (before the socket is bound). */
    method ServerConfigured(ip: Option<string>)
      requires Valid()
      modifies this
      ensures Valid()
      ensures app == Some(Application(ConfiguredPort(defaults.values)))
      ensures serverAddress == ServerAddress(ip, ConfiguredPort(defaults.values))
      ensures serverState == Running
    {
      var stored := Settings.IntegerFor(defaults.values, Settings.ServerPortKey);
      var port := if stored > 1024 then stored else FallbackPort;
      var configured := Application(port);
      var fullAddress := "http://" + ip.GetOr("localhost") + ":" + Decimal(configured.port);
      app := Some(configured);
      serverAddress := fullAddress;
      serverState := Running;
    }

    /** The server task's catch: the thrown error's description is recorded
        as the error state, in its own main-actor hop. */
    method TaskFailed(description: string)
      requires Valid()
      modifies this
      ensures Valid()
      ensures serverState == ServerState.Error(StartFailedPrefix + description)
      ensures serverAddress == old(serverAddress) && app == old(app)
    {
      var errorMessage := StartFailedPrefix + description;
      serverState := ServerState.Error(errorMessage);
    }

    /** The server task's last main-actor hop, after the application returned
        or the catch ran: the application is released, and any state but an
        error becomes stopped with the address cleared, also a state a later
        `startServer` has set. */
    method TaskCleanup()
      requires Valid()
      modifies this
      ensures Valid()
      ensures app == None
      ensures old(serverState).IsError() ==> serverState == old(serverState) && serverAddress == old(serverAddress)
      ensures !old(serverState).IsError() ==> serverState == Stopped && serverAddress == InactiveAddress
    {
      app := None;
      if !serverState.IsError() {
        serverState := Stopped;
        serverAddress := InactiveAddress;
      }
    }

    /** `stopServer`: acts only with an application while starting or
        running, then shuts it down and shows stopped; an error is never
        overwritten. The application itself is released by `TaskCleanup`. */
    method StopServer() returns (shutDown: bool)
      requires Valid()
      modifies this
      ensures Valid()
      ensures shutDown <==> old(app).Some? && old(serverState).IsStartingOrRunning()
      ensures old(serverState) == Running ==> shutDown
      ensures shutDown ==> serverState == Stopped && serverAddress == InactiveAddress
      ensures !shutDown ==> serverState == old(serverState) && serverAddress == old(serverAddress)
      ensures old(serverState).IsError() ==> serverState == old(serverState)
      ensures app == old(app)
    {
      if app.None? || !serverState.IsStartingOrRunning() {
        return false;
      }
      shutDown := true;
      if !serverState.IsError() {
        serverState := Stopped;
        serverAddress := InactiveAddress;
      }
    }

    // --------------------------------------------------------------- routes

    /** `GET /v1/models`: the loaded model's descriptor, or an empty list. */
    method ListModels(created: int) returns (r: ModelListResponse)
      ensures modelManager.IsModelLoaded() ==>
                r.data == [ModelObject("apple-foundation-model", created, "Apple")]
      ensures !modelManager.IsModelLoaded() ==> r.data == []
      ensures r.data == [] || r.data[0].id == "apple-foundation-model"
    {
      var models: seq<ModelObject> := [];
      var modelInfo := modelManager.CurrentModelInfo(created);
      if modelInfo.Some? {
        models := models + [modelInfo.value];
      }
      r := ModelListResponse(models);
    }

    /** `POST /v1/chat/completions`: 503 without a loaded model (before the
        body is read), a decoding failure, an event stream when `stream` is
        true, and otherwise the whole generation collected into one response
        (or the error the generation threw). */
    method ChatCompletions(body: Json, runtime: string -> Reply, uuid: string, created: int)
      returns (r: RouteResult<ChatResponse>)
      ensures !modelManager.IsModelLoaded() ==> r == Abort(ServiceUnavailable, NotLoadedReason)
      ensures modelManager.IsModelLoaded() && DecodeChatRequest(body).Failure? ==>
                r == DecodeFailed(DecodeChatRequest(body).error)
      ensures modelManager.IsModelLoaded() && DecodeChatRequest(body).Success?
              && DecodeChatRequest(body).value.stream == Some(true) ==>
                r == EventStream(DecodeChatRequest(body).value)
      ensures modelManager.IsModelLoaded() && DecodeChatRequest(body).Success?
              && DecodeChatRequest(body).value.stream != Some(true) ==>
                var request := DecodeChatRequest(body).value;
                var s := GeneratedStream(modelManager.activeModel.Some?, modelManager.memoryMode,
                                         request.messages, runtime);
                r == if s.failure.Some? then Thrown(s.failure.value)
                     else Ok(ChatResponseFor(request, Concat(s.items), uuid, created))
    {
      if !modelManager.IsModelLoaded() {
        return Abort(ServiceUnavailable, NotLoadedReason);
      }
      var decoded := DecodeChatRequest(body);
      if decoded.Failure? {
        return DecodeFailed(decoded.error);
      }
      var chatRequest := decoded.value;
      if chatRequest.stream == Some(true) {
        return EventStream(chatRequest);
      }
      var stream := modelManager.GenerateResponse(chatRequest.messages, runtime);
      var responseText := "";
      var i := 0;
      while i < |stream.items|
        invariant 0 <= i <= |stream.items|
        invariant responseText == Concat(stream.items[..i])
      {
        ConcatPrefixStep(stream.items, i);
        responseText := responseText + stream.items[i];
        i := i + 1;
      }
      assert stream.items[..i] == stream.items;
      if stream.failure.Some? {
        return Thrown(stream.failure.value);
      }
      r := Ok(ChatResponseFor(chatRequest, responseText, uuid, created));
    }

    /** `POST /v1/completions`: the prompt is sent as a single user message. */
    method Completions(body: Json, runtime: string -> Reply, uuid: string, created: int)
      returns (r: RouteResult<CompletionResponse>)
      ensures !modelManager.IsModelLoaded() ==> r == Abort(ServiceUnavailable, NotLoadedReason)
      ensures modelManager.IsModelLoaded() && DecodeCompletionRequest(body).Failure? ==>
                r == DecodeFailed(DecodeCompletionRequest(body).error)
      ensures modelManager.IsModelLoaded() && DecodeCompletionRequest(body).Success? ==>
                var request := DecodeCompletionRequest(body).value;
                var s := GeneratedStream(modelManager.activeModel.Some?, modelManager.memoryMode,
                                         [ChatMessage(User, request.prompt)], runtime);
                r == if s.failure.Some? then Thrown(s.failure.value)
                     else Ok(CompletionResponseFor(request, Concat(s.items), uuid, created))
    {
      if !modelManager.IsModelLoaded() {
        return Abort(ServiceUnavailable, NotLoadedReason);
      }
      var decoded := DecodeCompletionRequest(body);
      if decoded.Failure? {
        return DecodeFailed(decoded.error);
      }
      var reqContent := decoded.value;
      var messages := [ChatMessage(User, reqContent.prompt)];
      var stream := modelManager.GenerateResponse(messages, runtime);
      var responseText := "";
      var i := 0;
      while i < |stream.items|
        invariant 0 <= i <= |stream.items|
        invariant responseText == Concat(stream.items[..i])
      {
        ConcatPrefixStep(stream.items, i);
        responseText := responseText + stream.items[i];
        i := i + 1;
      }
      assert stream.items[..i] == stream.items;
      if stream.failure.Some? {
        return Thrown(stream.failure.value);
      }
      r := Ok(CompletionResponseFor(reqContent, responseText, uuid, created));
    }

    /** `POST /v1/embeddings`: not guarded by the model state; the input's
        sentence embedding, or the embedding error. */
    method Embeddings(body: Json, embedder: Option<string -> Option<seq<real>>>)
      returns (r: RouteResult<EmbeddingResponse>)
      ensures DecodeEmbeddingRequest(body).Failure? ==> r == DecodeFailed(DecodeEmbeddingRequest(body).error)
      ensures DecodeEmbeddingRequest(body).Success? ==>
                var request := DecodeEmbeddingRequest(body).value;
                match GenerateEmbedding(request.input, embedder)
                case Failure(e) => r == Thrown(ManagerError(e))
                case Success(vector) => r == Ok(EmbeddingResponseFor(request, vector))
    {
      var decoded := DecodeEmbeddingRequest(body);
      if decoded.Failure? {
        return DecodeFailed(decoded.error);
      }
      var reqContent := decoded.value;
      var vector := GenerateEmbedding(reqContent.input, embedder);
      if vector.Failure? {
        return Thrown(ManagerError(vector.error));
      }
      r := Ok(EmbeddingResponseFor(reqContent, vector.value));
    }

    /** The body of a streamed chat completion: one event per non-empty
        item, then (unless the generation threw) the final "stop" chunk and
        the done marker, and in every case the end of the body. */
    method StreamChat(request: ChatRequest, runtime: string -> Reply, uuid: string, created: int,
                      encode: Json -> Option<string>, writer: BodyWriter)
      modifies writer
      ensures writer.written == old(writer.written) +
                StreamBody(GeneratedStream(modelManager.activeModel.Some?, modelManager.memoryMode,
                                           request.messages, runtime),
                           StreamContext("chatcmpl-" + uuid, created, request.model), encode)
    {
      var modelStream := modelManager.GenerateResponse(request.messages, runtime);
      var ctx := StreamContext("chatcmpl-" + uuid, created, request.model);
      WriteStream(modelStream, ctx, encode, writer);
    }
  }

  /** A restart between the two hops of a failed server task is undone: the
      task fails, `startServer` (allowed from an error) launches a new task,
      and the old task's cleanup then shows stopped and "Inactive" although
      the new task is still starting. */
  method StaleCleanupStopsRestart(mm: ModelManager, defaults: Settings.Defaults, ip: Option<string>,
                                  description: string)
    returns (sm: ServerManager, restarted: bool)
    ensures restarted
    ensures sm.serverState == Stopped && sm.serverAddress == InactiveAddress && sm.app == None
  {
    sm := new ServerManager(mm, defaults);
    var launched := sm.StartServer();
    sm.ServerConfigured(ip);
    sm.TaskFailed(description);
    restarted := sm.StartServer();
    sm.TaskCleanup();
  }

  /** Writes a generated stream as server-sent events: the data events, then
      after a normal finish the final chunk and the done marker; after a
      thrown error nothing more; in both cases the end of the body. */
  method WriteStream(stream: TextStream, ctx: StreamContext, encode: Json -> Option<string>, writer: BodyWriter)
    modifies writer
    ensures writer.written == old(writer.written) + StreamBody(stream, ctx, encode)
  {
    StreamBodyTermination(stream, ctx, encode);
    WriteDataEvents(stream.items, ctx, encode, writer);
    ghost var data := Frames(DataChunks(stream.items, ctx), encode);
    if stream.failure.None? {
      var finalStreamChunk := FinalChunk(ctx);
      ghost var before := writer.written;
      var jsonString := encode(EncodeStreamChunk(finalStreamChunk));
      if jsonString.Some? {
        writer.Write(Buffer(Event(jsonString.value)));
      }
      FrameValue(finalStreamChunk, encode);
      assert writer.written == before + Frame(finalStreamChunk, encode);
      writer.Write(Buffer(DoneEvent));
      writer.Write(EndOfBody);
      ThreeWrites(old(writer.written), data, Frame(finalStreamChunk, encode), Buffer(DoneEvent), EndOfBody);
    } else {
      writer.Write(EndOfBody);
      OneWrite(old(writer.written), data, EndOfBody);
    }
  }

  lemma ThreeWrites<T>(w: seq<T>, d: seq<T>, f: seq<T>, x: T, y: T)
    ensures w + d + f + [x] + [y] == w + (d + f + [x, y])
  {
  }

  lemma OneWrite<T>(w: seq<T>, d: seq<T>, y: T)
    ensures w + d + [y] == w + (d + [y])
  {
  }

  /** The `for try await` loop: empty items are skipped, the first chunk
      built carries the assistant role, and a chunk that does not encode is
      logged and dropped (the role flag has already flipped). */
  method WriteDataEvents(items: seq<string>, ctx: StreamContext, encode: Json -> Option<string>, writer: BodyWriter)
    modifies writer
    ensures writer.written == old(writer.written) + Frames(DataChunks(items, ctx), encode)
  {
    var isFirstChunk := true;
    var i := 0;
    while i < |items|
      invariant 0 <= i <= |items|
      invariant EventsSoFar(items, i, ctx, encode, isFirstChunk, old(writer.written), writer.written)
    {
      var chunk := items[i];
      EventsSoFarStep(items, i, ctx, encode, isFirstChunk, old(writer.written), writer.written);
      if chunk != "" {
        var delta: StreamDelta;
        if isFirstChunk {
          delta := StreamDelta(Some(Assistant), Some(chunk));
          isFirstChunk := false;
        } else {
          delta := StreamDelta(None, Some(chunk));
        }
        var streamChunk := ChunkOf(delta, ctx);
        ghost var before := writer.written;
        var jsonString := encode(EncodeStreamChunk(streamChunk));
        if jsonString.Some? {
          writer.Write(Buffer(Event(jsonString.value)));
        }
        FrameValue(streamChunk, encode);
        assert writer.written == before + Frame(streamChunk, encode);
      }
      i := i + 1;
    }
    assert items[..i] == items;
  }

  /** What the data-event loop keeps true after `i` items: the role flag is
      still set exactly when no chunk has been built yet, and the body holds
      the events of the chunks built so far. */
  ghost predicate EventsSoFar(items: seq<string>, i: nat, ctx: StreamContext, encode: Json -> Option<string>,
                              isFirstChunk: bool, before: seq<BodyPart>, written: seq<BodyPart>)
    requires i <= |items|
  {
    && (isFirstChunk <==> DataChunks(items[..i], ctx) == [])
    && written == before + Frames(DataChunks(items[..i], ctx), encode)
  }

  lemma EventsSoFarStep(items: seq<string>, i: nat, ctx: StreamContext, encode: Json -> Option<string>,
                        isFirstChunk: bool, before: seq<BodyPart>, written: seq<BodyPart>)
    requires i < |items|
    requires EventsSoFar(items, i, ctx, encode, isFirstChunk, before, written)
    ensures items[i] == "" ==> EventsSoFar(items, i + 1, ctx, encode, isFirstChunk, before, written)
    ensures items[i] != "" ==>
              EventsSoFar(items, i + 1, ctx, encode, false, before,
                          written + Frame(ChunkOf(StreamDelta(if isFirstChunk then Some(Assistant) else None,
                                                              Some(items[i])), ctx), encode))
  {
    DataChunksStep(items, i, ctx);
    if items[i] != "" {
      var c := ChunkOf(StreamDelta(if isFirstChunk then Some(Assistant) else None, Some(items[i])), ctx);
      FramesAppend(DataChunks(items[..i], ctx), c, encode);
    }
  }

  /** One chunk's frame, by cases on whether it encodes. */
  lemma FrameValue(chunk: StreamChunk, encode: Json -> Option<string>)
    ensures encode(EncodeStreamChunk(chunk)).None? ==> Frame(chunk, encode) == []
    ensures encode(EncodeStreamChunk(chunk)).Some? ==>
              Frame(chunk, encode) == [Buffer(Event(encode(EncodeStreamChunk(chunk)).value))]
  {
  }

  // ------------------------------------------------------ route outcomes

  const ServiceUnavailable: nat := 503
  const NotLoadedReason := "AI model is not loaded."
  const HealthText := "Server is running."

  /** What a route handler produces: a body, an abort with a status, a
      request that failed to decode, an error thrown by the generation, or
      (chat only) the promise of an event stream for the decoded request. */
  datatype RouteResult<T> =
    | Ok(body: T)
    | Abort(status: nat, reason: string)
    | DecodeFailed(error: DecodingError)
    | Thrown(failure: StreamFailure)
    | EventStream(request: ChatRequest)

  /** The message contents of a conversation, in order. */
  function Contents(messages: seq<ChatMessage>): (cs: seq<string>)
    ensures |cs| == |messages|
    ensures forall k :: 0 <= k < |messages| ==> cs[k] == messages[k].content
  {
    if messages == [] then [] else [messages[0].content] + Contents(messages[1..])
  }

  /** Chat usage: the prompt counts the characters of all contents joined,
      the completion those of the response text. */
  function ChatUsage(messages: seq<ChatMessage>, text: string): Usage {
    var promptTokens := |Concat(Contents(messages))|;
    Usage(promptTokens, |text|, promptTokens + |text|)
  }

  function ChatResponseFor(request: ChatRequest, text: string, uuid: string, created: int): ChatResponse {
    ChatResponse("chatcmpl-" + uuid, "chat.completion", created, request.model,
                 [ChatChoice(0, ChatMessage(Assistant, text), "stop")], ChatUsage(request.messages, text))
  }

  function CompletionResponseFor(request: CompletionRequest, text: string, uuid: string, created: int): CompletionResponse {
    var promptTokens := |request.prompt|;
    CompletionResponse("cmpl-" + uuid, "text_completion", created, request.model,
                       [CompletionChoice(text, 0, "stop")], Usage(promptTokens, |text|, promptTokens + |text|))
  }

  function EmbeddingResponseFor(request: EmbeddingRequest, vector: seq<real>): EmbeddingResponse {
    var promptTokens := |request.input|;
    EmbeddingResponse([EmbeddingData(vector, 0)], request.model, Usage(promptTokens, 0, promptTokens))
  }

  /** Chat prompt tokens are the summed content lengths; every message adds
      exactly its own content's length; the total is prompt plus completion. */
  lemma {:induction false} ChatUsageCounts(messages: seq<ChatMessage>, m: ChatMessage, text: string)
    ensures ChatUsage(messages, text).promptTokens == TotalLength(Contents(messages))
    ensures ChatUsage(messages + [m], text).promptTokens
              == ChatUsage(messages, text).promptTokens + |m.content|
    ensures ChatUsage(messages, text).totalTokens
              == ChatUsage(messages, text).promptTokens + ChatUsage(messages, text).completionTokens
  {
    ConcatLength(Contents(messages));
    assert Contents(messages + [m]) == Contents(messages) + [m.content];
    ConcatAppend(Contents(messages), [m.content]);
    assert Concat([m.content]) == m.content + Concat([]);
  }

  /** Every response reports total = prompt + completion, the completion
      being the response text's length; embeddings report no completion. */
  lemma ResponseUsageBalanced(chat: ChatRequest, completion: CompletionRequest, embedding: EmbeddingRequest,
                              text: string, vector: seq<real>, uuid: string, created: int)
    ensures var u := ChatResponseFor(chat, text, uuid, created).usage;
            u.totalTokens == u.promptTokens + u.completionTokens && u.completionTokens == |text|
            && ChatResponseFor(chat, text, uuid, created).choices[0].message.content == text
    ensures var u := CompletionResponseFor(completion, text, uuid, created).usage;
            u.totalTokens == u.promptTokens + u.completionTokens && u.completionTokens == |text|
            && u.promptTokens == |completion.prompt|
            && CompletionResponseFor(completion, text, uuid, created).choices[0].text == text
    ensures var u := EmbeddingResponseFor(embedding, vector).usage;
            u.completionTokens == 0 && u.totalTokens == u.promptTokens == |embedding.input|
  {
  }

  /** The legacy completion's model prompt is exactly "user: " and the
      prompt text, whatever the memory mode. */
  lemma CompletionPromptIsUserLine(prompt: string, memoryMode: bool)
    ensures BuildPrompt([ChatMessage(User, prompt)], memoryMode) == "user: " + prompt
  {
    var ms := [ChatMessage(User, prompt)];
    var s := SelectionStart(ms, PromptTokenLimit);
    assert s == 0;
    assert ms[s..] == ms && [ms[|ms| - 1]] == ms;
    assert PromptOf(ms) == MessageLine(ms[0]);
  }

  // ------------------------------------------------------------ streaming

  /** A part of a streamed HTTP body. */
  datatype BodyPart = Buffer(text: string) | EndOfBody

  /** The response body writer: it records what is written, in order. */
  class BodyWriter {
    var written: seq<BodyPart>

    constructor ()
      ensures written == []
    {
      written := [];
    }

    method Write(part: BodyPart)
      modifies this
      ensures written == old(written) + [part]
    {
      written := written + [part];
    }
  }

  const DoneEvent := "data: [DONE]\n\n"

  /** A server-sent event carrying one JSON document. */
  function Event(json: string): string {
    "data: " + json + "\n\n"
  }

  /** What every chunk of one stream shares: its id, time and model. */
  datatype StreamContext = StreamContext(id: string, created: int, model: string)

  function ChunkOf(delta: StreamDelta, ctx: StreamContext): StreamChunk {
    StreamChunk(ctx.id, ctx.created, ctx.model, [StreamChoice(0, delta, None)])
  }

  /** The closing chunk: an empty delta and finish reason "stop". */
  function FinalChunk(ctx: StreamContext): StreamChunk {
    StreamChunk(ctx.id, ctx.created, ctx.model, [StreamChoice(0, StreamDelta(None, None), Some("stop"))])
  }

  /** The non-empty items, in order. */
  function NonEmpty(items: seq<string>): seq<string>
    decreases |items|
  {
    if items == [] then []
    else if items[|items| - 1] == "" then NonEmpty(items[..|items| - 1])
    else NonEmpty(items[..|items| - 1]) + [items[|items| - 1]]
  }

  /** The data chunks for the items: empty items are skipped and the first
      chunk actually built carries the assistant role. */
  function DataChunks(items: seq<string>, ctx: StreamContext): seq<StreamChunk>
    decreases |items|
  {
    if items == [] then []
    else
      var earlier := DataChunks(items[..|items| - 1], ctx);
      var chunk := items[|items| - 1];
      if chunk == "" then earlier
      else earlier + [ChunkOf(StreamDelta(if earlier == [] then Some(Assistant) else None, Some(chunk)), ctx)]
  }

  /** Every chunk a stream produces: its data chunks, then the final chunk
      unless the generation threw. */
  function SentChunks(stream: TextStream, ctx: StreamContext): seq<StreamChunk> {
    DataChunks(stream.items, ctx) + if stream.failure.None? then [FinalChunk(ctx)] else []
  }

  /** The events for the chunks that encode; a chunk that does not encode
      is skipped. */
  function Frames(chunks: seq<StreamChunk>, encode: Json -> Option<string>): seq<BodyPart>
    decreases |chunks|
  {
    if chunks == [] then []
    else Frames(chunks[..|chunks| - 1], encode) + Frame(chunks[|chunks| - 1], encode)
  }

  /** The event for one chunk, or nothing when it does not encode. */
  function Frame(chunk: StreamChunk, encode: Json -> Option<string>): seq<BodyPart> {
    match encode(EncodeStreamChunk(chunk))
    case Some(json) => [Buffer(Event(json))]
    case None => []
  }

  /** The whole streamed body. */
  function StreamBody(stream: TextStream, ctx: StreamContext, encode: Json -> Option<string>): seq<BodyPart> {
    Frames(SentChunks(stream, ctx), encode)
      + (if stream.failure.None? then [Buffer(DoneEvent)] else [])
      + [EndOfBody]
  }

  lemma FramesAppend(chunks: seq<StreamChunk>, c: StreamChunk, encode: Json -> Option<string>)
    ensures Frames(chunks + [c], encode) == Frames(chunks, encode) + Frame(c, encode)
  {
    assert (chunks + [c])[..|chunks|] == chunks;
  }

  /** One more item adds a data chunk exactly when it is non-empty; the role
      goes to the first chunk built. */
  lemma DataChunksStep(items: seq<string>, i: nat, ctx: StreamContext)
    requires i < |items|
    ensures items[i] == "" ==> DataChunks(items[..i + 1], ctx) == DataChunks(items[..i], ctx)
    ensures items[i] != "" ==>
              DataChunks(items[..i + 1], ctx)
                == DataChunks(items[..i], ctx)
                   + [ChunkOf(StreamDelta(if DataChunks(items[..i], ctx) == [] then Some(Assistant) else None,
                                          Some(items[i])), ctx)]
  {
    assert items[..i + 1][..i] == items[..i];
  }

  /** Frames are all buffers, never more than the chunks; when every chunk
      encodes there is exactly one event per chunk, in order. */
  lemma FramesFacts(chunks: seq<StreamChunk>, encode: Json -> Option<string>)
    ensures |Frames(chunks, encode)| <= |chunks|
    ensures forall k :: 0 <= k < |Frames(chunks, encode)| ==> Frames(chunks, encode)[k].Buffer?
    ensures (forall k :: 0 <= k < |chunks| ==> encode(EncodeStreamChunk(chunks[k])).Some?) ==>
              |Frames(chunks, encode)| == |chunks|
              && forall k :: 0 <= k < |chunks| ==>
                   Frames(chunks, encode)[k] == Buffer(Event(encode(EncodeStreamChunk(chunks[k])).value))
  {
    FramesBounded(chunks, encode);
    if forall k :: 0 <= k < |chunks| ==> encode(EncodeStreamChunk(chunks[k])).Some? {
      FramesWhenAllEncode(chunks, encode);
    }
  }

  lemma {:induction false} FramesBounded(chunks: seq<StreamChunk>, encode: Json -> Option<string>)
    ensures |Frames(chunks, encode)| <= |chunks|
    ensures forall k :: 0 <= k < |Frames(chunks, encode)| ==> Frames(chunks, encode)[k].Buffer?
    decreases |chunks|
  {
    if chunks != [] {
      var init, last := chunks[..|chunks| - 1], chunks[|chunks| - 1];
      FramesBounded(init, encode);
      FrameValue(last, encode);
      var f := Frames(init, encode);
      assert Frames(chunks, encode) == f + Frame(last, encode);
      forall k | 0 <= k < |f + Frame(last, encode)|
        ensures (f + Frame(last, encode))[k].Buffer?
      {
        if k < |f| {
          assert (f + Frame(last, encode))[k] == f[k];
        }
      }
    }
  }

  lemma {:induction false} FramesWhenAllEncode(chunks: seq<StreamChunk>, encode: Json -> Option<string>)
    requires forall k :: 0 <= k < |chunks| ==> encode(EncodeStreamChunk(chunks[k])).Some?
    ensures |Frames(chunks, encode)| == |chunks|
    ensures forall k :: 0 <= k < |chunks| ==>
              Frames(chunks, encode)[k] == Buffer(Event(encode(EncodeStreamChunk(chunks[k])).value))
    decreases |chunks|
  {
    if chunks != [] {
      var init, last := chunks[..|chunks| - 1], chunks[|chunks| - 1];
      assert forall k :: 0 <= k < |init| ==> init[k] == chunks[k];
      FramesWhenAllEncode(init, encode);
      FrameValue(last, encode);
      var f := Frames(init, encode);
      assert Frames(chunks, encode) == f + [Buffer(Event(encode(EncodeStreamChunk(last)).value))];
    }
  }

  /** The data chunks are exactly one per non-empty item, carrying it as
      content; the first and only the first carries the assistant role;
      none carries a finish reason. */
  lemma {:induction false} DataChunksFacts(items: seq<string>, ctx: StreamContext)
    ensures |DataChunks(items, ctx)| == |NonEmpty(items)|
    ensures forall k :: 0 <= k < |DataChunks(items, ctx)| ==>
              DataChunks(items, ctx)[k]
                == ChunkOf(StreamDelta(if k == 0 then Some(Assistant) else None, Some(NonEmpty(items)[k])), ctx)
    decreases |items|
  {
    if items != [] {
      DataChunksFacts(items[..|items| - 1], ctx);
    }
  }

  /** Skipping empty items loses no text, and skips nothing when no item is empty. */
  lemma NonEmptyFacts(items: seq<string>)
    ensures Concat(NonEmpty(items)) == Concat(items)
    ensures forall k :: 0 <= k < |NonEmpty(items)| ==> NonEmpty(items)[k] != ""
    ensures (forall k :: 0 <= k < |items| ==> items[k] != "") ==> NonEmpty(items) == items
  {
    NonEmptyConcat(items);
    NonEmptyHasNoEmpty(items);
    if forall k :: 0 <= k < |items| ==> items[k] != "" {
      NonEmptyKeepsAll(items);
    }
  }

  lemma {:induction false} NonEmptyConcat(items: seq<string>)
    ensures Concat(NonEmpty(items)) == Concat(items)
    decreases |items|
  {
    if items != [] {
      var init, last := items[..|items| - 1], items[|items| - 1];
      NonEmptyConcat(init);
      assert items == init + [last];
      ConcatAppend(init, [last]);
      assert Concat([last]) == last;
      if last != "" {
        ConcatAppend(NonEmpty(init), [last]);
      }
    }
  }

  lemma {:induction false} NonEmptyHasNoEmpty(items: seq<string>)
    ensures forall k :: 0 <= k < |NonEmpty(items)| ==> NonEmpty(items)[k] != ""
    decreases |items|
  {
    if items != [] {
      var init, last := items[..|items| - 1], items[|items| - 1];
      NonEmptyHasNoEmpty(init);
      if last != "" {
        var n := NonEmpty(init);
        assert NonEmpty(items) == n + [last];
        assert forall k :: 0 <= k < |n| ==> (n + [last])[k] == n[k];
      }
    }
  }

  lemma {:induction false} NonEmptyKeepsAll(items: seq<string>)
    requires forall k :: 0 <= k < |items| ==> items[k] != ""
    ensures NonEmpty(items) == items
    decreases |items|
  {
    if items != [] {
      var init, last := items[..|items| - 1], items[|items| - 1];
      assert forall k :: 0 <= k < |init| ==> init[k] == items[k];
      NonEmptyKeepsAll(init);
      assert items == init + [last];
    }
  }

  /** How a streamed body ends: always with exactly one end marker, last;
      after a normal finish the done marker comes right before it, preceded
      by the final chunk's event when that encodes; after a thrown error
      only the data events precede the end. */
  lemma StreamBodyTermination(stream: TextStream, ctx: StreamContext, encode: Json -> Option<string>)
    ensures var b := StreamBody(stream, ctx, encode);
            |b| > 0 && b[|b| - 1] == EndOfBody && forall k :: 0 <= k < |b| - 1 ==> b[k].Buffer?
    ensures stream.failure.None? ==>
              StreamBody(stream, ctx, encode)
                == Frames(DataChunks(stream.items, ctx), encode) + Frame(FinalChunk(ctx), encode)
                   + [Buffer(DoneEvent), EndOfBody]
    ensures stream.failure.Some? ==>
              StreamBody(stream, ctx, encode) == Frames(DataChunks(stream.items, ctx), encode) + [EndOfBody]
  {
    var data := DataChunks(stream.items, ctx);
    var sent := SentChunks(stream, ctx);
    var f := Frames(sent, encode);
    var done: seq<BodyPart> := if stream.failure.None? then [Buffer(DoneEvent)] else [];
    FramesBounded(sent, encode);
    forall k | 0 <= k < |f + done|
      ensures (f + done)[k].Buffer?
    {
      if k < |f| {
        assert (f + done)[k] == f[k];
      }
    }
    EndsWithEnd(f + done);
    if stream.failure.None? {
      FramesAppend(data, FinalChunk(ctx), encode);
    } else {
      assert sent == data;
    }
  }

  /** Buffers followed by the end marker: the end comes last and only there. */
  lemma EndsWithEnd(parts: seq<BodyPart>)
    requires forall k :: 0 <= k < |parts| ==> parts[k].Buffer?
    ensures var b := parts + [EndOfBody];
            |b| > 0 && b[|b| - 1] == EndOfBody && forall k :: 0 <= k < |b| - 1 ==> b[k].Buffer?
  {
    var b := parts + [EndOfBody];
    assert forall k :: 0 <= k < |b| - 1 ==> b[k] == parts[k];
  }

  /** Among the chunks sent, only the final one has a finish reason, and it
      is sent exactly when the generation did not throw. */
  lemma FinishReasonOnlyOnFinal(stream: TextStream, ctx: StreamContext)
    ensures var sent := SentChunks(stream, ctx);
            forall k :: 0 <= k < |sent| ==>
              && |sent[k].choices| == 1
              && (sent[k].choices[0].finishReason == Some("stop") <==> sent[k].choices[0].finishReason.Some?)
              && (sent[k].choices[0].finishReason.Some? <==> stream.failure.None? && k == |sent| - 1)
  {
    var data := DataChunks(stream.items, ctx);
    var sent := SentChunks(stream, ctx);
    DataChunksFacts(stream.items, ctx);
    forall k | 0 <= k < |sent|
      ensures |sent[k].choices| == 1
      ensures sent[k].choices[0].finishReason == Some("stop") <==> sent[k].choices[0].finishReason.Some?
      ensures sent[k].choices[0].finishReason.Some? <==> stream.failure.None? && k == |sent| - 1
    {
      if k < |data| {
        assert sent[k] == data[k];
      } else {
        assert sent[k] == FinalChunk(ctx);
      }
    }
  }

  /** The data chunks' contents are the non-empty items, so they join to the
      items' text. */
  function ChunkContents(chunks: seq<StreamChunk>): seq<string>
    decreases |chunks|
  {
    if chunks == [] then []
    else
      var c := chunks[|chunks| - 1];
      ChunkContents(chunks[..|chunks| - 1])
        + if |c.choices| > 0 && c.choices[0].delta.content.Some? then [c.choices[0].delta.content.value] else []
  }

  lemma {:induction false} ChunkContentsOfData(items: seq<string>, ctx: StreamContext)
    ensures ChunkContents(DataChunks(items, ctx)) == NonEmpty(items)
    decreases |items|
  {
    if items != [] {
      ChunkContentsOfData(items[..|items| - 1], ctx);
      var earlier := DataChunks(items[..|items| - 1], ctx);
      if items[|items| - 1] != "" {
        var c := ChunkOf(StreamDelta(if earlier == [] then Some(Assistant) else None, Some(items[|items| - 1])), ctx);
        assert (earlier + [c])[..|earlier|] == earlier;
      }
    }
  }

  /** When the runtime's snapshots each extend the previous one, the streamed
      contents and the non-streamed response text are both the runtime's
      final text, and no item is skipped by the stream. */
  lemma StreamedTextIsFinalSnapshot(memoryMode: bool, messages: seq<ChatMessage>, runtime: string -> Reply,
                                    ctx: StreamContext)
    requires messages != []
    requires PrefixChain(runtime(BuildPrompt(messages, memoryMode)).snapshots)
    ensures var snaps := runtime(BuildPrompt(messages, memoryMode)).snapshots;
            var s := GeneratedStream(true, memoryMode, messages, runtime);
            && Concat(s.items) == (if snaps == [] then "" else snaps[|snaps| - 1])
            && ChunkContents(DataChunks(s.items, ctx)) == s.items
            && Concat(ChunkContents(DataChunks(s.items, ctx))) == Concat(s.items)
            && |DataChunks(s.items, ctx)| == |s.items|
  {
    var snaps := runtime(BuildPrompt(messages, memoryMode)).snapshots;
    var s := GeneratedStream(true, memoryMode, messages, runtime);
    DeltasRebuildFinalSnapshot(snaps);
    GeneratedStreamFacts(true, memoryMode, messages, runtime);
    NonEmptyFacts(s.items);
    DataChunksFacts(s.items, ctx);
    ChunkContentsOfData(s.items, ctx);
  }
}

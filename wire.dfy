/** The OpenAI-compatible wire model: inbound JSON values, the request and
    response records, the custom decoding of a chat message whose `content`
    may be a string or a list of parts, and the key names and fixed `object`
    literals of the encoded responses. */
module Wire {
  import opened Common

  /** A JSON value as the decoder sees it. Numbers are integers except for
      the components of an embedding vector, which are carried as reals. */
  datatype Json =
    | JNull
    | JBool(b: bool)
    | JNumber(n: int)
    | JReal(r: real)
    | JString(s: string)
    | JArray(items: seq<Json>)
    | JObject(fields: map<string, Json>)

  /** Why decoding failed, after the decoder's own error kinds. */
  datatype DecodingError =
    | KeyNotFound(key: string)
    | ValueNotFound(key: string)
    | TypeMismatch(key: string)
    | DataCorrupted(key: string, description: string)

  // ---------------------------------------------------------------- roles

  datatype Role = System | User | Assistant

  /** The raw value a role is written as on the wire. */
  function RoleRawValue(r: Role): string {
    match r
    case System => "system"
    case User => "user"
    case Assistant => "assistant"
  }

  /** `Role(rawValue:)`: only the three raw values name a role. */
  function RoleFromRawValue(s: string): Option<Role> {
    if s == "system" then Some(System)
    else if s == "user" then Some(User)
    else if s == "assistant" then Some(Assistant)
    else None
  }

  lemma RoleRawValueRoundTrip(r: Role)
    ensures RoleFromRawValue(RoleRawValue(r)) == Some(r)
  {
  }

  /** A string decodes to a role exactly when it is one of the three raw values,
      and then it is that role's raw value. */
  lemma RoleFromRawValueExact(s: string)
    ensures RoleFromRawValue(s).Some? <==> (s == "system" || s == "user" || s == "assistant")
    ensures RoleFromRawValue(s).Some? ==> RoleRawValue(RoleFromRawValue(s).value) == s
  {
  }

  // ------------------------------------------------------ field decoders

  /** `decode(String.self, forKey:)` on a keyed container. */
  function DecodeString(fields: map<string, Json>, key: string): Result<string, DecodingError> {
    if key !in fields then Failure(KeyNotFound(key))
    else match fields[key]
      case JString(s) => Success(s)
      case JNull => Failure(ValueNotFound(key))
      case _ => Failure(TypeMismatch(key))
  }

  /** `decodeIfPresent(String.self, forKey:)`: a missing key or null is nil. */
  function DecodeOptionalString(fields: map<string, Json>, key: string): Result<Option<string>, DecodingError> {
    if key !in fields then Success(None)
    else match fields[key]
      case JString(s) => Success(Some(s))
      case JNull => Success(None)
      case _ => Failure(TypeMismatch(key))
  }

  /** `decodeIfPresent(Bool.self, forKey:)`. */
  function DecodeOptionalBool(fields: map<string, Json>, key: string): Result<Option<bool>, DecodingError> {
    if key !in fields then Success(None)
    else match fields[key]
      case JBool(b) => Success(Some(b))
      case JNull => Success(None)
      case _ => Failure(TypeMismatch(key))
  }

  /** `decode(Role.self, forKey: .role)`: a string whose raw value names a role. */
  function DecodeRole(fields: map<string, Json>): Result<Role, DecodingError> {
    match DecodeString(fields, "role")
    case Failure(e) => Failure(e)
    case Success(s) =>
      match RoleFromRawValue(s)
      case Some(r) => Success(r)
      case None => Failure(DataCorrupted("role", "Cannot initialize Role from invalid String value " + s))
  }

  // ------------------------------------------------------ chat messages

  datatype ChatMessage = ChatMessage(role: Role, content: string)

  /** One element of an array-valued `content`; `text` is optional because
      parts of other kinds (images) carry none. */
  datatype ContentPart = ContentPart(kind: string, text: Option<string>)

  function DecodeContentPart(j: Json): Result<ContentPart, DecodingError> {
    match j
    case JObject(f) =>
      (match DecodeString(f, "type")
       case Failure(e) => Failure(e)
       case Success(kind) =>
         match DecodeOptionalString(f, "text")
         case Failure(e) => Failure(e)
         case Success(text) => Success(ContentPart(kind, text)))
    case _ => Failure(TypeMismatch("content"))
  }

  /** `decode([ContentPart].self, ...)`: every element must decode. */
  function DecodeContentParts(items: seq<Json>): (r: Result<seq<ContentPart>, DecodingError>)
    ensures r.Success? <==> forall i :: 0 <= i < |items| ==> DecodeContentPart(items[i]).Success?
    ensures r.Success? ==> |r.value| == |items|
    ensures r.Success? ==> forall i :: 0 <= i < |items| ==> DecodeContentPart(items[i]) == Success(r.value[i])
  {
    if items == [] then Success([])
    else match DecodeContentPart(items[0])
      case Failure(e) => Failure(e)
      case Success(p) =>
        match DecodeContentParts(items[1..])
        case Failure(e) => Failure(e)
        case Success(ps) => Success([p] + ps)
  }

  /** `contentParts.first { $0.type == "text" }`. */
  function FirstTextPart(parts: seq<ContentPart>): Option<ContentPart> {
    if parts == [] then None
    else if parts[0].kind == "text" then Some(parts[0])
    else FirstTextPart(parts[1..])
  }

  /** The text an array-valued `content` decodes to: the first text part's
      text, or the empty string. */
  function PartsText(parts: seq<ContentPart>): string {
    match FirstTextPart(parts)
    case Some(p) => p.text.GetOr("")
    case None => ""
  }

  lemma {:induction false} FirstTextPartAt(parts: seq<ContentPart>, i: nat)
    requires i < |parts| && parts[i].kind == "text"
    requires forall j :: 0 <= j < i ==> parts[j].kind != "text"
    ensures FirstTextPart(parts) == Some(parts[i])
  {
    if i > 0 {
      assert parts[0].kind != "text";
      FirstTextPartAt(parts[1..], i - 1);
    }
  }

  lemma {:induction false} FirstTextPartAbsent(parts: seq<ContentPart>)
    requires forall j :: 0 <= j < |parts| ==> parts[j].kind != "text"
    ensures FirstTextPart(parts) == None
  {
    if parts != [] {
      FirstTextPartAbsent(parts[1..]);
    }
  }

  /** Array content selects the first part of kind "text" (its text, or "" when
      it has none); later text parts are ignored; without a text part it is "". */
  lemma PartsTextSelectsFirst(parts: seq<ContentPart>, i: nat)
    requires i < |parts| && parts[i].kind == "text"
    requires forall j :: 0 <= j < i ==> parts[j].kind != "text"
    ensures PartsText(parts) == parts[i].text.GetOr("")
    ensures forall later: string :: PartsText(parts + [ContentPart("text", Some(later))]) == PartsText(parts)
  {
    FirstTextPartAt(parts, i);
    forall later: string ensures PartsText(parts + [ContentPart("text", Some(later))]) == PartsText(parts) {
      var extended := parts + [ContentPart("text", Some(later))];
      FirstTextPartAt(extended, i);
    }
  }

  lemma PartsTextWithoutTextPart(parts: seq<ContentPart>)
    requires forall j :: 0 <= j < |parts| ==> parts[j].kind != "text"
    ensures PartsText(parts) == ""
  {
    FirstTextPartAbsent(parts);
  }

  const ContentErrorDescription := "Content field is not a String or a valid array of content parts."

  /** The `content` of a message: a string is taken unchanged; otherwise an
      array of parts whose first text part supplies the text; anything else
      is a data-corruption error. */
  function DecodeContent(fields: map<string, Json>): Result<string, DecodingError> {
    if "content" in fields && fields["content"].JString? then Success(fields["content"].s)
    else if "content" in fields && fields["content"].JArray?
         && DecodeContentParts(fields["content"].items).Success? then
      Success(PartsText(DecodeContentParts(fields["content"].items).value))
    else Failure(DataCorrupted("content", ContentErrorDescription))
  }

  /** `OpenAIChatMessage.init(from:)`: the role first, then the content. */
  function DecodeChatMessage(j: Json): Result<ChatMessage, DecodingError> {
    match j
    case JObject(f) =>
      (match DecodeRole(f)
       case Failure(e) => Failure(e)
       case Success(role) =>
         match DecodeContent(f)
         case Failure(e) => Failure(e)
         case Success(content) => Success(ChatMessage(role, content)))
    case _ => Failure(TypeMismatch(""))
  }

  /** `OpenAIChatMessage.encode(to:)`: `content` is always written as a string. */
  function EncodeChatMessage(m: ChatMessage): Json {
    JObject(map["role" := JString(RoleRawValue(m.role)), "content" := JString(m.content)])
  }

  lemma ChatMessageRoundTrip(m: ChatMessage)
    ensures DecodeChatMessage(EncodeChatMessage(m)) == Success(m)
  {
    RoleRawValueRoundTrip(m.role);
  }

  /** Re-encoding a decoded message turns array content into the string it
      decoded to, and decoding that again gives the same message. */
  lemma ReencodeIsStable(j: Json)
    requires DecodeChatMessage(j).Success?
    ensures EncodeChatMessage(DecodeChatMessage(j).value).fields["content"]
            == JString(DecodeChatMessage(j).value.content)
    ensures DecodeChatMessage(EncodeChatMessage(DecodeChatMessage(j).value)) == DecodeChatMessage(j)
  {
    ChatMessageRoundTrip(DecodeChatMessage(j).value);
  }

  /** A string `content` is decoded unchanged. */
  lemma StringContentUnchanged(f: map<string, Json>, r: Role, s: string)
    requires DecodeRole(f) == Success(r)
    requires "content" in f && f["content"] == JString(s)
    ensures DecodeChatMessage(JObject(f)) == Success(ChatMessage(r, s))
  {
  }

  /** Array `content` whose elements all decode yields the first text part's text. */
  lemma ArrayContentDecodes(f: map<string, Json>, r: Role, items: seq<Json>, parts: seq<ContentPart>)
    requires DecodeRole(f) == Success(r)
    requires "content" in f && f["content"] == JArray(items)
    requires DecodeContentParts(items) == Success(parts)
    ensures DecodeChatMessage(JObject(f)) == Success(ChatMessage(r, PartsText(parts)))
  {
  }

  /** Content that is missing, null, a number, a boolean, an object, or an array
      with an element that is not a valid part is a data-corruption error. */
  lemma BadContentIsError(f: map<string, Json>)
    requires DecodeRole(f).Success?
    requires "content" !in f
          || (!f["content"].JString? && !f["content"].JArray?)
          || (f["content"].JArray? && DecodeContentParts(f["content"].items).Failure?)
    ensures DecodeChatMessage(JObject(f)) == Failure(DataCorrupted("content", ContentErrorDescription))
  {
  }

  function DecodeChatMessages(items: seq<Json>): (r: Result<seq<ChatMessage>, DecodingError>)
    ensures r.Success? <==> forall i :: 0 <= i < |items| ==> DecodeChatMessage(items[i]).Success?
    ensures r.Success? ==> |r.value| == |items|
    ensures r.Success? ==> forall i :: 0 <= i < |items| ==> DecodeChatMessage(items[i]) == Success(r.value[i])
  {
    if items == [] then Success([])
    else match DecodeChatMessage(items[0])
      case Failure(e) => Failure(e)
      case Success(m) =>
        match DecodeChatMessages(items[1..])
        case Failure(e) => Failure(e)
        case Success(ms) => Success([m] + ms)
  }

  // ------------------------------------------------------------ requests

  datatype ChatRequest = ChatRequest(model: string, messages: seq<ChatMessage>, stream: Option<bool>)

  /** `OpenAIChatRequest` decoding: `model`, then `messages`, then optional `stream`. */
  function DecodeChatRequest(j: Json): Result<ChatRequest, DecodingError> {
    match j
    case JObject(f) =>
      (match DecodeString(f, "model")
       case Failure(e) => Failure(e)
       case Success(model) =>
         if "messages" !in f then Failure(KeyNotFound("messages"))
         else if f["messages"].JNull? then Failure(ValueNotFound("messages"))
         else if !f["messages"].JArray? then Failure(TypeMismatch("messages"))
         else match DecodeChatMessages(f["messages"].items)
           case Failure(e) => Failure(e)
           case Success(messages) =>
             match DecodeOptionalBool(f, "stream")
             case Failure(e) => Failure(e)
             case Success(stream) => Success(ChatRequest(model, messages, stream)))
    case _ => Failure(TypeMismatch(""))
  }

  /** The messages as a client sends them, each content a string. */
  function EncodeChatMessages(ms: seq<ChatMessage>): (items: seq<Json>)
    ensures |items| == |ms|
  {
    if ms == [] then [] else [EncodeChatMessage(ms[0])] + EncodeChatMessages(ms[1..])
  }

  lemma {:induction false} ChatMessagesRoundTrip(ms: seq<ChatMessage>)
    ensures DecodeChatMessages(EncodeChatMessages(ms)) == Success(ms)
  {
    if ms != [] {
      ChatMessageRoundTrip(ms[0]);
      ChatMessagesRoundTrip(ms[1..]);
      assert EncodeChatMessages(ms)[1..] == EncodeChatMessages(ms[1..]);
      assert [ms[0]] + ms[1..] == ms;
    }
  }

  /** A request object with a string `model` and encoded `messages` decodes
      to them; a missing or null `stream` decodes as nil (not streamed), a
      boolean as itself, and any other `stream` is a type mismatch. */
  lemma ChatRequestDecoding(f: map<string, Json>, model: string, ms: seq<ChatMessage>)
    requires "model" in f && f["model"] == JString(model)
    requires "messages" in f && f["messages"] == JArray(EncodeChatMessages(ms))
    ensures "stream" !in f ==> DecodeChatRequest(JObject(f)) == Success(ChatRequest(model, ms, None))
    ensures "stream" in f && f["stream"] == JNull ==> DecodeChatRequest(JObject(f)) == Success(ChatRequest(model, ms, None))
    ensures forall b :: "stream" in f && f["stream"] == JBool(b) ==>
              DecodeChatRequest(JObject(f)) == Success(ChatRequest(model, ms, Some(b)))
    ensures "stream" in f && !f["stream"].JNull? && !f["stream"].JBool? ==>
              DecodeChatRequest(JObject(f)) == Failure(TypeMismatch("stream"))
  {
    ChatMessagesRoundTrip(ms);
  }

  datatype CompletionRequest = CompletionRequest(model: string, prompt: string)

  function DecodeCompletionRequest(j: Json): Result<CompletionRequest, DecodingError> {
    match j
    case JObject(f) =>
      (match DecodeString(f, "model")
       case Failure(e) => Failure(e)
       case Success(model) =>
         match DecodeString(f, "prompt")
         case Failure(e) => Failure(e)
         case Success(prompt) => Success(CompletionRequest(model, prompt)))
    case _ => Failure(TypeMismatch(""))
  }

  datatype EmbeddingRequest = EmbeddingRequest(model: string, input: string)

  function DecodeEmbeddingRequest(j: Json): Result<EmbeddingRequest, DecodingError> {
    match j
    case JObject(f) =>
      (match DecodeString(f, "model")
       case Failure(e) => Failure(e)
       case Success(model) =>
         match DecodeString(f, "input")
         case Failure(e) => Failure(e)
         case Success(input) => Success(EmbeddingRequest(model, input)))
    case _ => Failure(TypeMismatch(""))
  }

  // ----------------------------------------------------------- responses

  const StreamChunkObject := "chat.completion.chunk"
  const ListObject := "list"
  const EmbeddingObject := "embedding"
  const ModelObjectKind := "model"

  datatype Usage = Usage(promptTokens: int, completionTokens: int, totalTokens: int)

  datatype ChatChoice = ChatChoice(index: int, message: ChatMessage, finishReason: string)

  datatype ChatResponse = ChatResponse(id: string, objectKind: string, created: int, model: string,
                                       choices: seq<ChatChoice>, usage: Usage)

  /** The delta of a stream chunk; either part may be absent. */
  datatype StreamDelta = StreamDelta(role: Option<Role>, content: Option<string>)

  datatype StreamChoice = StreamChoice(index: int, delta: StreamDelta, finishReason: Option<string>)

  /** A stream chunk; its `object` is always "chat.completion.chunk". */
  datatype StreamChunk = StreamChunk(id: string, created: int, model: string, choices: seq<StreamChoice>)

  datatype CompletionChoice = CompletionChoice(text: string, index: int, finishReason: string)

  datatype CompletionResponse = CompletionResponse(id: string, objectKind: string, created: int, model: string,
                                                   choices: seq<CompletionChoice>, usage: Usage)

  /** One embedding vector; its `object` is always "embedding". */
  datatype EmbeddingData = EmbeddingData(embedding: seq<real>, index: int)

  /** An embeddings response; its `object` is always "list". */
  datatype EmbeddingResponse = EmbeddingResponse(data: seq<EmbeddingData>, model: string, usage: Usage)

  /** A model descriptor; its `object` is always "model". */
  datatype ModelObject = ModelObject(id: string, created: int, ownedBy: string)

  /** The model list; its `object` is always "list". */
  datatype ModelListResponse = ModelListResponse(data: seq<ModelObject>)

  // ------------------------------------------------------------ encoders

  /** A field list with the nil-valued optionals left out, as the synthesized
      encoder's `encodeIfPresent` does. */
  function WithOptional(fields: map<string, Json>, key: string, value: Option<Json>): map<string, Json> {
    match value
    case Some(v) => fields[key := v]
    case None => fields
  }

  function EncodeUsage(u: Usage): Json {
    JObject(map["prompt_tokens" := JNumber(u.promptTokens),
                "completion_tokens" := JNumber(u.completionTokens),
                "total_tokens" := JNumber(u.totalTokens)])
  }

  function EncodeChatChoice(c: ChatChoice): Json {
    JObject(map["index" := JNumber(c.index), "message" := EncodeChatMessage(c.message),
                "finish_reason" := JString(c.finishReason)])
  }

  function EncodeChatResponse(r: ChatResponse): Json {
    JObject(map["id" := JString(r.id), "object" := JString(r.objectKind), "created" := JNumber(r.created),
                "model" := JString(r.model), "choices" := JArray(seq(|r.choices|, i requires 0 <= i < |r.choices| => EncodeChatChoice(r.choices[i]))),
                "usage" := EncodeUsage(r.usage)])
  }

  function EncodeStreamDelta(d: StreamDelta): Json {
    var withRole := WithOptional(map[], "role", match d.role case Some(r) => Some(JString(RoleRawValue(r))) case None => None);
    JObject(WithOptional(withRole, "content", match d.content case Some(s) => Some(JString(s)) case None => None))
  }

  function EncodeStreamChoice(c: StreamChoice): Json {
    JObject(WithOptional(map["index" := JNumber(c.index), "delta" := EncodeStreamDelta(c.delta)],
                         "finish_reason", match c.finishReason case Some(s) => Some(JString(s)) case None => None))
  }

  function EncodeStreamChunk(c: StreamChunk): Json {
    JObject(map["id" := JString(c.id), "object" := JString(StreamChunkObject), "created" := JNumber(c.created),
                "model" := JString(c.model),
                "choices" := JArray(seq(|c.choices|, i requires 0 <= i < |c.choices| => EncodeStreamChoice(c.choices[i])))])
  }

  function EncodeCompletionChoice(c: CompletionChoice): Json {
    JObject(map["text" := JString(c.text), "index" := JNumber(c.index), "finish_reason" := JString(c.finishReason)])
  }

  function EncodeCompletionResponse(r: CompletionResponse): Json {
    JObject(map["id" := JString(r.id), "object" := JString(r.objectKind), "created" := JNumber(r.created),
                "model" := JString(r.model),
                "choices" := JArray(seq(|r.choices|, i requires 0 <= i < |r.choices| => EncodeCompletionChoice(r.choices[i]))),
                "usage" := EncodeUsage(r.usage)])
  }

  function EncodeEmbeddingData(d: EmbeddingData): Json {
    JObject(map["object" := JString(EmbeddingObject),
                "embedding" := JArray(seq(|d.embedding|, i requires 0 <= i < |d.embedding| => JReal(d.embedding[i]))),
                "index" := JNumber(d.index)])
  }

  function EncodeEmbeddingResponse(r: EmbeddingResponse): Json {
    JObject(map["object" := JString(ListObject),
                "data" := JArray(seq(|r.data|, i requires 0 <= i < |r.data| => EncodeEmbeddingData(r.data[i]))),
                "model" := JString(r.model), "usage" := EncodeUsage(r.usage)])
  }

  function EncodeModelObject(m: ModelObject): Json {
    JObject(map["id" := JString(m.id), "object" := JString(ModelObjectKind), "created" := JNumber(m.created),
                "owned_by" := JString(m.ownedBy)])
  }

  function EncodeModelList(r: ModelListResponse): Json {
    JObject(map["object" := JString(ListObject),
                "data" := JArray(seq(|r.data|, i requires 0 <= i < |r.data| => EncodeModelObject(r.data[i])))])
  }

  // ------------------------------------------------- wire-shape properties

  /** The key set of an encoded JSON object (empty for any other value). */
  function Keys(j: Json): set<string> {
    if j.JObject? then j.fields.Keys else {}
  }

  /** The camel-case Swift property names that never reach the wire. */
  const SwiftPropertyNames: set<string> := {"finishReason", "promptTokens", "completionTokens", "totalTokens", "ownedBy"}

  /** Usage is written with the snake_case keys only. */
  lemma UsageKeys(u: Usage)
    ensures Keys(EncodeUsage(u)) == {"prompt_tokens", "completion_tokens", "total_tokens"}
    ensures Keys(EncodeUsage(u)) * SwiftPropertyNames == {}
  {
  }

  lemma ChatChoiceKeys(c: ChatChoice)
    ensures Keys(EncodeChatChoice(c)) == {"index", "message", "finish_reason"}
    ensures Keys(EncodeChatChoice(c)) * SwiftPropertyNames == {}
  {
  }

  lemma CompletionChoiceKeys(c: CompletionChoice)
    ensures Keys(EncodeCompletionChoice(c)) == {"text", "index", "finish_reason"}
    ensures Keys(EncodeCompletionChoice(c)) * SwiftPropertyNames == {}
  {
  }

  /** A stream choice carries `finish_reason` only when it has one. */
  lemma StreamChoiceKeys(c: StreamChoice)
    ensures Keys(EncodeStreamChoice(c)) == if c.finishReason.Some? then {"index", "delta", "finish_reason"} else {"index", "delta"}
    ensures Keys(EncodeStreamChoice(c)) * SwiftPropertyNames == {}
  {
  }

  lemma ModelObjectKeys(m: ModelObject)
    ensures Keys(EncodeModelObject(m)) == {"id", "object", "created", "owned_by"}
    ensures Keys(EncodeModelObject(m)) * SwiftPropertyNames == {}
  {
  }

  /** The fixed `object` literals of the encoded responses. */
  lemma ObjectLiterals(c: StreamChunk, d: EmbeddingData, e: EmbeddingResponse, m: ModelObject, l: ModelListResponse)
    ensures EncodeStreamChunk(c).fields["object"] == JString("chat.completion.chunk")
    ensures EncodeEmbeddingData(d).fields["object"] == JString("embedding")
    ensures EncodeEmbeddingResponse(e).fields["object"] == JString("list")
    ensures EncodeModelObject(m).fields["object"] == JString("model")
    ensures EncodeModelList(l).fields["object"] == JString("list")
  {
  }

  /** A stream delta carries a `role` key exactly when it has a role, and a
      `content` key exactly when it has content, so the terminal delta is `{}`. */
  lemma StreamDeltaKeys(d: StreamDelta)
    ensures "role" in Keys(EncodeStreamDelta(d)) <==> d.role.Some?
    ensures "content" in Keys(EncodeStreamDelta(d)) <==> d.content.Some?
    ensures d.role.None? && d.content.None? ==> EncodeStreamDelta(d) == JObject(map[])
  {
  }
}

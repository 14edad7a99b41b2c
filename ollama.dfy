/** The request half of WWSimpleAI_Ollama.swift: the JSON body templates, the
    endpoint operations and `loadIntoMemory`. The transport is a parameter: it
    receives the request and returns a response or a transport error. */
module Ollama {
  import opened Wrappers
  import opened JsonValue
  import opened Constant
  import opened Extension
  import opened MessageModel
  import opened OllamaResponse

  /** The process-wide settings `configure` writes. */
  datatype Config = Config(baseURL: string, model: string, jpegCompressionQuality: real)

  const DefaultConfig: Config := Config("http://localhost:11434", "gemma:2b", 0.75)

  const NullValue: string := "null"

  /** The default arguments of the public operations. Every operation of the
      model takes all its arguments; a call that leaves one out in the source
      passes the matching constant here. */
  const DefaultShape: ResponseType := StringResponse(None)
  /** `timeout` of `generate`, `talk` and `chat` ... */
  const DefaultTimeout: real := 60.0
  /** ... and of `download`. */
  const DefaultDownloadTimeout: real := 600.0
  /** `separator` of `generate`, `talk`, `chat`, `version` and `loadIntoMemory` ... */
  const DefaultSeparator: string := ""
  /** ... and of `create` and `download`, which join status lines with a comma. */
  const DefaultStatusSeparator: string := ","
  const DefaultUseStream: bool := false
  const DefaultIsLoad: bool := true
  const DefaultIsVerbose: bool := false

  datatype HttpMethod = GET | POST | DELETE

  /** What the library hands the transport; `timeout` is `None` where the
      source leaves the transport's default in place. */
  datatype Request = Request(httpMethod: HttpMethod, api: Api, timeout: Option<real>, body: Option<string>)

  datatype Error = Client(error: ClientError) | Transport(description: string)

  type Transport = Request -> Result<ResponseInformation, string>

  // ---------------------------------------------------------------------------
  // Body templates

  /** `"\(s)"` inside a JSON string: the text goes in as it is, unescaped. */
  function Quoted(s: string): (r: string)
    ensures |r| == |s| + 2 && r[0] == '"' && r[|r| - 1] == '"' && r[1..|r| - 1] == s
  {
    "\"" + s + "\""
  }

  /** `\(bool)` */
  function BoolLiteral(b: bool): (r: string)
    ensures r == "true" <==> b
    ensures r == "false" <==> !b
  {
    if b then "true" else "false"
  }

  /** `value ?? nullValue` */
  function OrNull(value: Option<string>): (r: string)
    ensures value.None? ==> r == NullValue
    ensures value.Some? ==> r == value.value
  {
    if value.None? then NullValue else value.value
  }

  function FormatValue(format: Option<ResponseFormat>): string
  {
    OrNull(if format.None? then None else Some(format.value.Value()))
  }

  function OptionsValue(options: Option<ResponseOptions>): string
  {
    OrNull(if options.None? then None else Some(options.value.Value()))
  }

  function ToolsValue(tools: Option<ResponseTools>): string
  {
    OrNull(if tools.None? then None else Some(tools.value.Value()))
  }

  /** `images?._base64String(mimeType: .jpeg(quality))._jsonString() ?? nullValue` */
  function ImagesValue(images: Option<seq<Image>>, quality: real, codec: Codec): string
  {
    if images.None? then NullValue
    else
      var encoded := Base64Strings(images.value, Jpeg(quality), codec);
      OrNull(codec.encodeJson(JArray(seq(|encoded|, i requires 0 <= i < |encoded| => JString(encoded[i])))))
  }

  /** `messages._jsonString(using:)` */
  function MessagesJson(messages: seq<MessageInformation>, codec: Codec): Option<string>
  {
    codec.encodeJson(JArray(EncodeAll(messages)))
  }

  /** The layout every body literal of the source shares: an opening brace on
      its own line, one `  "key": value` line per field in order, the lines
      separated by `,\n`, and a closing brace on its own line. Values are
      pasted in as they are. */
  function Template(fields: seq<(string, string)>): string
  {
    "{\n" + Join(FieldLines(fields), ",\n") + "\n}"
  }

  function FieldLine(field: (string, string)): string
  {
    "  \"" + field.0 + "\": " + field.1
  }

  function FieldLines(fields: seq<(string, string)>): (r: seq<string>)
    ensures |r| == |fields|
    ensures forall i :: 0 <= i < |fields| ==> r[i] == FieldLine(fields[i])
  {
    seq(|fields|, i requires 0 <= i < |fields| => FieldLine(fields[i]))
  }

  function Keys(fields: seq<(string, string)>): (r: seq<string>)
    ensures |r| == |fields|
    ensures forall i :: 0 <= i < |fields| ==> r[i] == fields[i].0
  {
    seq(|fields|, i requires 0 <= i < |fields| => fields[i].0)
  }

  function GenerateFields(model: string, prompt: string, useStream: bool, format: string, options: string,
                          images: string): seq<(string, string)>
  {
    [("model", Quoted(model)), ("prompt", Quoted(prompt)), ("stream", BoolLiteral(useStream)),
     ("format", format), ("options", options), ("images", images)]
  }

  function ChatFields(model: string, messages: string, useStream: bool, format: string, options: string,
                      images: string, tools: string): seq<(string, string)>
  {
    [("model", Quoted(model)), ("messages", messages), ("stream", BoolLiteral(useStream)),
     ("format", format), ("options", options), ("images", images), ("tools", tools)]
  }

  function CreateFields(newModel: string, oldModel: string, personality: string, useStream: bool)
    : seq<(string, string)>
  {
    [("model", Quoted(newModel)), ("from", Quoted(oldModel)), ("system", Quoted(personality)),
     ("stream", BoolLiteral(useStream))]
  }

  function DeleteFields(model: string): seq<(string, string)>
  {
    [("model", Quoted(model))]
  }

  function CopyFields(source: string, destination: string): seq<(string, string)>
  {
    [("source", Quoted(source)), ("destination", Quoted(destination))]
  }

  function DownloadFields(model: string, useStream: bool): seq<(string, string)>
  {
    [("model", Quoted(model)), ("stream", BoolLiteral(useStream))]
  }

  function DocumentFields(model: string, isVerbose: bool): seq<(string, string)>
  {
    [("model", Quoted(model)), ("verbose", BoolLiteral(isVerbose))]
  }

  /** `keep_alive` is `isLoad._int()`, written as a decimal number. */
  function LoadGenerateFields(model: string, isLoad: bool): seq<(string, string)>
  {
    [("model", Quoted(model)), ("keep_alive", DecimalString(BoolToInt(isLoad)))]
  }

  function LoadChatFields(model: string, isLoad: bool): seq<(string, string)>
  {
    [("model", Quoted(model)), ("messages", "[]"), ("keep_alive", DecimalString(BoolToInt(isLoad)))]
  }

  // ---------------------------------------------------------------------------
  // Requests

  function GenerateRequest(config: Config, prompt: string, format: Option<ResponseFormat>,
                           options: Option<ResponseOptions>, images: Option<seq<Image>>, useStream: bool,
                           codec: Codec): Request
  {
    Request(POST, Api.Generate, None,
      Some(Template(GenerateFields(config.model, prompt, useStream, FormatValue(format), OptionsValue(options),
                                   ImagesValue(images, config.jpegCompressionQuality, codec)))))
  }

  function ChatRequest(config: Config, messages: string, timeout: real, format: Option<ResponseFormat>,
                       options: Option<ResponseOptions>, images: Option<seq<Image>>, tools: Option<ResponseTools>,
                       useStream: bool, codec: Codec): Request
  {
    Request(POST, Api.Chat, Some(timeout),
      Some(Template(ChatFields(config.model, messages, useStream, FormatValue(format), OptionsValue(options),
                               ImagesValue(images, config.jpegCompressionQuality, codec), ToolsValue(tools)))))
  }

  function LoadGenerateRequest(config: Config, isLoad: bool): Request
  {
    Request(POST, Api.Generate, None, Some(Template(LoadGenerateFields(config.model, isLoad))))
  }

  function LoadChatRequest(config: Config, isLoad: bool): Request
  {
    Request(POST, Api.Chat, None, Some(Template(LoadChatFields(config.model, isLoad))))
  }

  function CreateRequest(newModel: string, oldModel: string, personality: string, useStream: bool): Request
  {
    Request(POST, Api.Create, None, Some(Template(CreateFields(newModel, oldModel, personality, useStream))))
  }

  function DownloadRequest(model: string, timeout: real, useStream: bool): Request
  {
    Request(POST, Api.Download, Some(timeout), Some(Template(DownloadFields(model, useStream))))
  }

  function DeleteRequest(model: string): Request
  {
    Request(DELETE, Api.Delete, None, Some(Template(DeleteFields(model))))
  }

  function CopyRequest(source: string, destination: string): Request
  {
    Request(POST, Api.Copy, None, Some(Template(CopyFields(source, destination))))
  }

  function DocumentRequest(model: string, isVerbose: bool): Request
  {
    Request(POST, Api.Model, None, Some(Template(DocumentFields(model, isVerbose))))
  }

  /** `urlString: api.url()`: the URL a request goes to under the configured
      base URL; `None` for the apis whose path Constant.swift does not show. */
  function UrlString(config: Config, request: Request): Option<string>
  {
    request.api.Url(config.baseURL)
  }

  /** Generate and its load go to `/api/generate`, chat and its load to
      `/api/chat`, below the configured base URL as it is. */
  lemma RequestUrls(config: Config, prompt: string, messages: string, timeout: real, format: Option<ResponseFormat>,
                    options: Option<ResponseOptions>, images: Option<seq<Image>>, tools: Option<ResponseTools>,
                    useStream: bool, isLoad: bool, codec: Codec)
    ensures UrlString(config, GenerateRequest(config, prompt, format, options, images, useStream, codec))
         == Some(config.baseURL + "/api/generate")
    ensures UrlString(config, LoadGenerateRequest(config, isLoad)) == Some(config.baseURL + "/api/generate")
    ensures UrlString(config, ChatRequest(config, messages, timeout, format, options, images, tools, useStream, codec))
         == Some(config.baseURL + "/api/chat")
    ensures UrlString(config, LoadChatRequest(config, isLoad)) == Some(config.baseURL + "/api/chat")
  {
    assert config.baseURL + "/" + "api/generate" == config.baseURL + "/api/generate";
    assert config.baseURL + "/" + "api/chat" == config.baseURL + "/api/chat";
  }

  // ---------------------------------------------------------------------------
  // Operations

  /** A transport failure passes through; otherwise the response is handled. */
  function Respond<T>(response: Result<ResponseInformation, string>,
                      handle: ResponseInformation -> Result<T, ClientError>): (r: Result<T, Error>)
    ensures response.Failure? ==> r == Failure(Transport(response.error))
    ensures response.Success? && handle(response.value).Success? ==> r == Success(handle(response.value).value)
    ensures response.Success? && handle(response.value).Failure? ==> r == Failure(Client(handle(response.value).error))
  {
    match response
    case Failure(e) => Failure(Transport(e))
    case Success(info) =>
      match handle(info)
      case Success(v) => Success(v)
      case Failure(e) => Failure(Client(e))
  }

  function Generate(config: Config, prompt: string, shape: ResponseType, timeout: real,
                    format: Option<ResponseFormat>, options: Option<ResponseOptions>, images: Option<seq<Image>>,
                    useStream: bool, separator: string, codec: Codec, transport: Transport): Result<ResponseType, Error>
  {
    Respond(transport(GenerateRequest(config, prompt, format, options, images, useStream, codec)),
      (info: ResponseInformation) => ParseResponseInformation(info, Api.Generate, shape, "response", codec, separator))
  }

  function Chat(config: Config, messages: seq<MessageInformation>, shape: ResponseType, timeout: real,
                format: Option<ResponseFormat>, options: Option<ResponseOptions>, images: Option<seq<Image>>,
                tools: Option<ResponseTools>, useStream: bool, separator: string, codec: Codec,
                transport: Transport): Result<ResponseType, Error>
  {
    match MessagesJson(messages, codec)
    case None => Failure(Client(NotJsonString))
    case Some(json) =>
      Respond(transport(ChatRequest(config, json, timeout, format, options, images, tools, useStream, codec)),
        (info: ResponseInformation) => ParseResponseInformation(info, Api.Chat, shape, "content", codec, separator))
  }

  /** `talk(content:…)`: a one-message chat; its own `type` argument is not passed on. */
  function Talk(config: Config, content: string, shape: ResponseType, timeout: real,
                format: Option<ResponseFormat>, options: Option<ResponseOptions>, images: Option<seq<Image>>,
                tools: Option<ResponseTools>, useStream: bool, separator: string, codec: Codec,
                transport: Transport): Result<ResponseType, Error>
  {
    Chat(config, [NewMessage(User, content)], StringResponse(None), timeout, format, options, images, tools,
         useStream, separator, codec, transport)
  }

  /** The answer handling `create` and `download` write out inline. */
  function StatusResult(api: Api, info: ResponseInformation, shape: ResponseType, codec: Codec, separator: string)
    : Result<ResponseType, ClientError>
  {
    match ParseHttpStatusCode(info, DefaultSuccessCodes)
    case Failure(e) => Failure(e)
    case Success(data) =>
      match shape
      case DataResponse(_) => Success(DataResponse(Some(data)))
      case NdjsonResponse(_) => Success(NdjsonResponse(DecodeNdjson(data, codec)))
      case StringResponse(_) => CombinedString(api, Some(data), "status", codec, separator)
  }

  function Create(newModel: string, oldModel: string, personality: string, shape: ResponseType, useStream: bool,
                  separator: string, codec: Codec, transport: Transport): Result<ResponseType, Error>
  {
    Respond(transport(CreateRequest(newModel, oldModel, personality, useStream)),
      (info: ResponseInformation) => StatusResult(Api.Create, info, shape, codec, separator))
  }

  function Download(model: string, shape: ResponseType, timeout: real, useStream: bool, separator: string,
                    codec: Codec, transport: Transport): Result<ResponseType, Error>
  {
    Respond(transport(DownloadRequest(model, timeout, useStream)),
      (info: ResponseInformation) => StatusResult(Api.Download, info, shape, codec, separator))
  }

  /** `delete` and `copy` keep only whether the status check passed. */
  function StatusSucceeded(info: ResponseInformation): Result<bool, ClientError>
  {
    match ParseHttpStatusCode(info, DefaultSuccessCodes)
    case Failure(e) => Failure(e)
    case Success(_) => Success(true)
  }

  function Delete(model: string, transport: Transport): Result<bool, Error>
  {
    Respond(transport(DeleteRequest(model)), StatusSucceeded)
  }

  function Copy(source: string, destination: string, transport: Transport): Result<bool, Error>
  {
    Respond(transport(CopyRequest(source, destination)), StatusSucceeded)
  }

  function Version(shape: ResponseType, separator: string, codec: Codec, transport: Transport)
    : Result<ResponseType, Error>
  {
    Respond(transport(Request(GET, Api.Version, None, None)),
      (info: ResponseInformation) => ParseResponseInformation(info, Api.Version, shape, "version", codec, separator))
  }

  /** The guards of `models` and `processStatus`: the body must be an object
      with a `models` array; the decoded records must be a non-empty list. */
  function ModelList<R>(info: ResponseInformation, codec: Codec, decodeRecords: seq<Json> -> Option<seq<R>>)
    : Result<seq<R>, ClientError>
  {
    match ParseHttpStatusCode(info, DefaultSuccessCodes)
    case Failure(e) => Failure(e)
    case Success(data) =>
      var dict := if codec.parseData(data).None? then None else AsObject(codec.parseData(data).value);
      var models := if dict.None? then None else ArrayMember(dict.value, "models");
      if models.None? then Failure(NotJsonString)
      else
        var records := decodeRecords(models.value);
        if records.None? || records.value == [] then Failure(IsEmpty) else Success(records.value)
  }

  function Models<R>(codec: Codec, decodeRecords: seq<Json> -> Option<seq<R>>, transport: Transport)
    : Result<seq<R>, Error>
  {
    Respond(transport(Request(GET, Api.Models, None, None)),
      (info: ResponseInformation) => ModelList(info, codec, decodeRecords))
  }

  function ProcessStatus<R>(codec: Codec, decodeRecords: seq<Json> -> Option<seq<R>>, transport: Transport)
    : Result<seq<R>, Error>
  {
    Respond(transport(Request(GET, Api.Ps, None, None)),
      (info: ResponseInformation) => ModelList(info, codec, decodeRecords))
  }

  /** `document`: the body must be an object that decodes to the document record. */
  function DocumentResult<D>(info: ResponseInformation, codec: Codec, decodeDocument: map<string, Json> -> Option<D>)
    : Result<D, ClientError>
  {
    match ParseHttpStatusCode(info, DefaultSuccessCodes)
    case Failure(e) => Failure(e)
    case Success(data) =>
      var dict := if codec.parseData(data).None? then None else AsObject(codec.parseData(data).value);
      var document := if dict.None? then None else decodeDocument(dict.value);
      if document.None? then Failure(NotJsonString) else Success(document.value)
  }

  function Document<D>(model: string, isVerbose: bool, codec: Codec, decodeDocument: map<string, Json> -> Option<D>,
                       transport: Transport): Result<D, Error>
  {
    Respond(transport(DocumentRequest(model, isVerbose)),
      (info: ResponseInformation) => DocumentResult(info, codec, decodeDocument))
  }

  /** `loadIntoMemory(api:isLoad:…)`: generate and chat load or evict the model;
      every other api is refused before any request. Both parse with the
      generate rule and the top-level `done_reason` field. */
  function LoadIntoMemory(config: Config, api: Api, isLoad: bool, shape: ResponseType, separator: string,
                          codec: Codec, transport: Transport): Result<ResponseType, Error>
  {
    match api
    case Generate =>
      Respond(transport(LoadGenerateRequest(config, isLoad)),
        (info: ResponseInformation) => ParseResponseInformation(info, Api.Generate, shape, "done_reason", codec, separator))
    case Chat =>
      Respond(transport(LoadChatRequest(config, isLoad)),
        (info: ResponseInformation) => ParseResponseInformation(info, Api.Generate, shape, "done_reason", codec, separator))
    case _ => Failure(Client(NotSupport))
  }

  // ---------------------------------------------------------------------------
  // Properties of the bodies

  /** The text of a template before field `k`'s line ... */
  function LinePrefix(fields: seq<(string, string)>, k: nat): string
    requires k <= |fields|
  {
    "{\n" + (if k == 0 then "" else Join(FieldLines(fields[..k]), ",\n") + ",\n")
  }

  /** ... and after it. */
  function LineSuffix(fields: seq<(string, string)>, k: nat): string
    requires k < |fields|
  {
    (if k + 1 == |fields| then "" else ",\n" + Join(FieldLines(fields[k + 1..]), ",\n")) + "\n}"
  }

  /** A template is the text before a field's line, the line, and the text after it. */
  lemma TemplateAt(fields: seq<(string, string)>, k: nat)
    requires k < |fields|
    ensures Template(fields) == LinePrefix(fields, k) + FieldLine(fields[k]) + LineSuffix(fields, k)
  {
    var before, line, after := FieldLines(fields[..k]), FieldLine(fields[k]), FieldLines(fields[k + 1..]);
    assert FieldLines(fields) == before + [line] + after;
    assert before == [] <==> k == 0;
    assert after == [] <==> k + 1 == |fields|;
    JoinAround(before, line, after, ",\n");
    var pre := if before == [] then "" else Join(before, ",\n") + ",\n";
    var post := if after == [] then "" else ",\n" + Join(after, ",\n");
    assert Template(fields) == "{\n" + (pre + line + post) + "\n}";
    assert "{\n" + (pre + line + post) + "\n}" == ("{\n" + pre) + line + (post + "\n}");
  }

  /** Every field is one whole line of the body: it follows a newline and is
      followed by `,\n`, or by `\n}` when it is the last. */
  lemma TemplateLine(fields: seq<(string, string)>, k: nat)
    requires k < |fields|
    ensures Template(fields) == LinePrefix(fields, k) + FieldLine(fields[k]) + LineSuffix(fields, k)
    ensures LinePrefix(fields, k)[|LinePrefix(fields, k)| - 1] == '\n'
    ensures k + 1 < |fields| ==> LineSuffix(fields, k)[..2] == ",\n"
    ensures k + 1 == |fields| ==> LineSuffix(fields, k) == "\n}"
  {
    TemplateAt(fields, k);
    if k > 0 {
      var joined := Join(FieldLines(fields[..k]), ",\n");
      assert LinePrefix(fields, k) == ("{\n" + joined) + ",\n";
    }
    if k + 1 < |fields| {
      var joined := Join(FieldLines(fields[k + 1..]), ",\n");
      assert LineSuffix(fields, k) == ",\n" + (joined + "\n}");
    }
  }

  /** The keys each body writes, in order; the load bodies write no `stream`. */
  lemma BodyKeys(model: string, text: string, useStream: bool, format: string, options: string, images: string,
                 tools: string, isLoad: bool)
    ensures Keys(GenerateFields(model, text, useStream, format, options, images))
         == ["model", "prompt", "stream", "format", "options", "images"]
    ensures Keys(ChatFields(model, text, useStream, format, options, images, tools))
         == ["model", "messages", "stream", "format", "options", "images", "tools"]
    ensures Keys(CreateFields(model, text, text, useStream)) == ["model", "from", "system", "stream"]
    ensures Keys(DeleteFields(model)) == ["model"]
    ensures Keys(CopyFields(model, text)) == ["source", "destination"]
    ensures Keys(DownloadFields(model, useStream)) == ["model", "stream"]
    ensures Keys(DocumentFields(model, useStream)) == ["model", "verbose"]
    ensures Keys(LoadGenerateFields(model, isLoad)) == ["model", "keep_alive"]
    ensures Keys(LoadChatFields(model, isLoad)) == ["model", "messages", "keep_alive"]
    ensures "stream" !in Keys(LoadGenerateFields(model, isLoad)) && "stream" !in Keys(LoadChatFields(model, isLoad))
  {
  }

  /** The prompt is pasted between quotes as it is, unescaped, on the second line. */
  lemma PromptVerbatim(config: Config, prompt: string, format: Option<ResponseFormat>,
                       options: Option<ResponseOptions>, images: Option<seq<Image>>, useStream: bool, codec: Codec)
    ensures var fields := GenerateFields(config.model, prompt, useStream, FormatValue(format), OptionsValue(options),
                                         ImagesValue(images, config.jpegCompressionQuality, codec));
            (GenerateRequest(config, prompt, format, options, images, useStream, codec).body
             == Some(LinePrefix(fields, 1) + "  \"prompt\": \"" + prompt + "\"" + LineSuffix(fields, 1)))
  {
    var fields := GenerateFields(config.model, prompt, useStream, FormatValue(format), OptionsValue(options),
                                 ImagesValue(images, config.jpegCompressionQuality, codec));
    TemplateLine(fields, 1);
    assert "  \"" + "prompt" + "\": " == "  \"prompt\": ";
    assert FieldLine(fields[1]) == "  \"prompt\": " + ("\"" + prompt + "\"");
    assert "  \"prompt\": " + ("\"" + prompt + "\"") == "  \"prompt\": \"" + prompt + "\"";
    var pre, key, quote, post := LinePrefix(fields, 1), "  \"prompt\": \"", "\"", LineSuffix(fields, 1);
    assert pre + (key + prompt + quote) + post == pre + key + prompt + quote + post;
  }

  /** A missing format, options, tools or image list is written as `null`. */
  lemma AbsentOptionalsAreNull(config: Config, text: string, timeout: real, useStream: bool, codec: Codec)
    ensures GenerateRequest(config, text, None, None, None, useStream, codec).body
         == Some(Template(GenerateFields(config.model, text, useStream, "null", "null", "null")))
    ensures ChatRequest(config, text, timeout, None, None, None, None, useStream, codec).body
         == Some(Template(ChatFields(config.model, text, useStream, "null", "null", "null", "null")))
  {
  }

  /** Loading writes `keep_alive: 1`, unloading `keep_alive: 0`. */
  lemma LoadBodiesKeepAlive(model: string, isLoad: bool)
    ensures LoadGenerateFields(model, isLoad) == [("model", Quoted(model)), ("keep_alive", if isLoad then "1" else "0")]
    ensures LoadChatFields(model, isLoad)
         == [("model", Quoted(model)), ("messages", "[]"), ("keep_alive", if isLoad then "1" else "0")]
  {
    BoolToIntText();
  }

  /** `talk` sends one user message holding the content. */
  lemma TalkMessage(content: string, codec: Codec)
    ensures MessagesJson([NewMessage(User, content)], codec)
         == codec.encodeJson(JArray([JObject(map["role" := JString("user"), "content" := JString(content)])]))
  {
    assert EncodeAll([NewMessage(User, content)]) == [Encode(NewMessage(User, content))];
  }

  // ---------------------------------------------------------------------------
  // Properties of the operations

  /** `generate` never hands its timeout to the transport; `chat` and
      `download` do. */
  lemma TimeoutForwarding(config: Config, prompt: string, shape: ResponseType, timeout1: real, timeout2: real,
                          format: Option<ResponseFormat>, options: Option<ResponseOptions>,
                          images: Option<seq<Image>>, tools: Option<ResponseTools>, useStream: bool,
                          separator: string, codec: Codec, transport: Transport)
    ensures GenerateRequest(config, prompt, format, options, images, useStream, codec).timeout == None
    ensures Generate(config, prompt, shape, timeout1, format, options, images, useStream, separator, codec, transport)
         == Generate(config, prompt, shape, timeout2, format, options, images, useStream, separator, codec, transport)
    ensures ChatRequest(config, prompt, timeout1, format, options, images, tools, useStream, codec).timeout
         == Some(timeout1)
    ensures DownloadRequest(config.model, timeout1, useStream).timeout == Some(timeout1)
  {
  }

  /** Messages that cannot be encoded fail the chat before any request: the
      result is the same whatever the transport would answer. */
  lemma ChatEncodingFailure(config: Config, messages: seq<MessageInformation>, shape: ResponseType, timeout: real,
                            format: Option<ResponseFormat>, options: Option<ResponseOptions>,
                            images: Option<seq<Image>>, tools: Option<ResponseTools>, useStream: bool,
                            separator: string, codec: Codec, transport1: Transport, transport2: Transport)
    requires MessagesJson(messages, codec).None?
    ensures Chat(config, messages, shape, timeout, format, options, images, tools, useStream, separator, codec,
                 transport1) == Failure(Client(NotJsonString))
    ensures Chat(config, messages, shape, timeout, format, options, images, tools, useStream, separator, codec,
                 transport2) == Failure(Client(NotJsonString))
  {
  }

  /** `talk` answers as a chat of one user message parsed as a combined
      string, whatever `type` its caller asked for. */
  lemma TalkAnswersString(config: Config, content: string, shape: ResponseType, timeout: real,
                          format: Option<ResponseFormat>, options: Option<ResponseOptions>,
                          images: Option<seq<Image>>, tools: Option<ResponseTools>, useStream: bool,
                          separator: string, codec: Codec, transport: Transport, json: string,
                          info: ResponseInformation)
    requires MessagesJson([NewMessage(User, content)], codec) == Some(json)
    requires transport(ChatRequest(config, json, timeout, format, options, images, tools, useStream, codec))
          == Success(info)
    ensures var answer := ParseResponseInformation(info, Api.Chat, StringResponse(None), "content", codec, separator);
            (Talk(config, content, shape, timeout, format, options, images, tools, useStream, separator, codec,
                  transport)
             == if answer.Success? then Success(answer.value) else Failure(Client(answer.error)))
    ensures forall other: ResponseType ::
      Talk(config, content, shape, timeout, format, options, images, tools, useStream, separator, codec, transport)
      == Talk(config, content, other, timeout, format, options, images, tools, useStream, separator, codec, transport)
  {
  }

  /** `create` and `download` answer exactly as the shared parser does with
      the `status` field. */
  lemma StatusResultIsParse(api: Api, info: ResponseInformation, shape: ResponseType, codec: Codec,
                            separator: string)
    ensures StatusResult(api, info, shape, codec, separator)
         == ParseResponseInformation(info, api, shape, "status", codec, separator)
  {
  }

  /** `delete` and `copy` succeed, always with `true`, exactly when the
      transport answers with status 200 and a body. */
  lemma DeleteCopyOutcome(model: string, source: string, destination: string, transport: Transport)
    ensures Delete(model, transport) != Success(false) && Copy(source, destination, transport) != Success(false)
    ensures var answer := transport(DeleteRequest(model));
            (Delete(model, transport) == Success(true)
             <==> answer.Success? && answer.value.statusCode == Some(200) && answer.value.data.Some?)
    ensures var answer := transport(CopyRequest(source, destination));
            (Copy(source, destination, transport) == Success(true)
             <==> answer.Success? && answer.value.statusCode == Some(200) && answer.value.data.Some?)
  {
  }

  /** The guards of `models` and `processStatus`, in order. */
  lemma ModelListGuards<R>(info: ResponseInformation, codec: Codec, decodeRecords: seq<Json> -> Option<seq<R>>)
    ensures var status := ParseHttpStatusCode(info, DefaultSuccessCodes);
            status.Failure? ==> ModelList(info, codec, decodeRecords) == Failure(status.error)
    ensures var status := ParseHttpStatusCode(info, DefaultSuccessCodes);
            var json := if status.Failure? then None else codec.parseData(status.value);
            status.Success? ==>
              (ModelList(info, codec, decodeRecords) == Failure(NotJsonString)
               <==> json.None? || !json.value.JObject? || "models" !in json.value.members
                    || !json.value.members["models"].JArray?)
    ensures var status := ParseHttpStatusCode(info, DefaultSuccessCodes);
            var json := if status.Failure? then None else codec.parseData(status.value);
            status.Success? && json.Some? && json.value.JObject? && "models" in json.value.members
            && json.value.members["models"].JArray? ==>
              var records := decodeRecords(json.value.members["models"].items);
              (ModelList(info, codec, decodeRecords) == Failure(IsEmpty) <==> records.None? || records.value == [])
              && (records.Some? && records.value != [] ==> ModelList(info, codec, decodeRecords) == Success(records.value))
    ensures ModelList(info, codec, decodeRecords).Success? ==> ModelList(info, codec, decodeRecords).value != []
  {
  }

  /** The guards of `document`, in order. */
  lemma DocumentGuards<D>(info: ResponseInformation, codec: Codec, decodeDocument: map<string, Json> -> Option<D>)
    ensures var status := ParseHttpStatusCode(info, DefaultSuccessCodes);
            status.Failure? ==> DocumentResult(info, codec, decodeDocument) == Failure(status.error)
    ensures var status := ParseHttpStatusCode(info, DefaultSuccessCodes);
            var json := if status.Failure? then None else codec.parseData(status.value);
            status.Success? ==>
              (DocumentResult(info, codec, decodeDocument) == Failure(NotJsonString)
               <==> json.None? || !json.value.JObject? || decodeDocument(json.value.members).None?)
    ensures var status := ParseHttpStatusCode(info, DefaultSuccessCodes);
            var json := if status.Failure? then None else codec.parseData(status.value);
            DocumentResult(info, codec, decodeDocument).Success? ==>
              status.Success? && json.Some? && json.value.JObject?
              && decodeDocument(json.value.members) == Some(DocumentResult(info, codec, decodeDocument).value)
  {
  }

  /** Only generate and chat can load a model; any other api is refused with
      no request made. */
  lemma LoadIntoMemoryRefuses(config: Config, api: Api, isLoad: bool, shape: ResponseType, separator: string,
                              codec: Codec, transport: Transport)
    ensures api != Api.Generate && api != Api.Chat <==>
            LoadIntoMemory(config, api, isLoad, shape, separator, codec, transport) == Failure(Client(NotSupport))
               && forall other: Transport ::
                    LoadIntoMemory(config, api, isLoad, shape, separator, codec, other) == Failure(Client(NotSupport))
  {
    if api == Api.Generate || api == Api.Chat {
      var other: Transport := (request: Request) => Failure("");
      assert LoadIntoMemory(config, api, isLoad, shape, separator, codec, other) == Failure(Transport(""));
    }
  }

  /** Loading through chat reads the answer with the generate rule: given the
      same answer, both load requests return the same result. */
  lemma LoadChatParsesLikeGenerate(config: Config, isLoad: bool, shape: ResponseType, separator: string,
                                   codec: Codec, transport: Transport)
    requires transport(LoadChatRequest(config, isLoad)) == transport(LoadGenerateRequest(config, isLoad))
    ensures LoadIntoMemory(config, Api.Chat, isLoad, shape, separator, codec, transport)
         == LoadIntoMemory(config, Api.Generate, isLoad, shape, separator, codec, transport)
  {
  }

  /** `version` sends a GET with no body; a 200 answer of one line
      `{"version": v}` gives the string `v`. */
  lemma VersionAnswers(data: Bytes, codec: Codec, transport: Transport, separator: string, line: string, v: string)
    requires line != [] && '\n' !in line
    requires codec.decodeText(data) == Some(line)
    requires codec.parseText(line) == Some(JObject(map["version" := JString(v)]))
    requires transport(Request(GET, Api.Version, None, None)) == Success(ResponseInformation(Some(200), Some(data)))
    ensures Version(StringResponse(None), separator, codec, transport) == Success(StringResponse(Some(v)))
  {
    var json := JObject(map["version" := JString(v)]);
    OneLineNdjson(data, codec, line, json);
    assert [json][1..] == [];
    assert Extracted([json], TopLevel, "version") == [v];
    assert ErrorMessage(First([json])).None?;
  }

  /** A chat, of any messages that encode, answered 200 with one line
      `{"message": {"content": v}}` gives the string `v`. */
  lemma ChatAnswers(config: Config, messages: seq<MessageInformation>, timeout: real, format: Option<ResponseFormat>,
                    options: Option<ResponseOptions>, images: Option<seq<Image>>, tools: Option<ResponseTools>,
                    useStream: bool, separator: string, codec: Codec, transport: Transport, json: string,
                    data: Bytes, line: string, v: string)
    requires MessagesJson(messages, codec) == Some(json)
    requires line != [] && '\n' !in line
    requires codec.decodeText(data) == Some(line)
    requires codec.parseText(line) == Some(JObject(map["message" := JObject(map["content" := JString(v)])]))
    requires transport(ChatRequest(config, json, timeout, format, options, images, tools, useStream, codec))
          == Success(ResponseInformation(Some(200), Some(data)))
    ensures Chat(config, messages, StringResponse(None), timeout, format, options, images, tools, useStream,
                 separator, codec, transport) == Success(StringResponse(Some(v)))
  {
    var answer := JObject(map["message" := JObject(map["content" := JString(v)])]);
    OneLineNdjson(data, codec, line, answer);
    assert [answer][1..] == [];
    assert Extracted([answer], UnderMessage, "content") == [v];
    assert ErrorMessage(First([answer])).None?;
  }

  /** Loading through generate or chat, answered 200 with one line
      `{"done_reason": v}`, gives the string `v`: both read the top-level
      `done_reason` field. */
  lemma LoadAnswers(config: Config, api: Api, isLoad: bool, separator: string, codec: Codec, transport: Transport,
                    data: Bytes, line: string, v: string)
    requires api == Api.Generate || api == Api.Chat
    requires line != [] && '\n' !in line
    requires codec.decodeText(data) == Some(line)
    requires codec.parseText(line) == Some(JObject(map["done_reason" := JString(v)]))
    requires transport(if api == Api.Generate then LoadGenerateRequest(config, isLoad) else LoadChatRequest(config, isLoad))
          == Success(ResponseInformation(Some(200), Some(data)))
    ensures LoadIntoMemory(config, api, isLoad, StringResponse(None), separator, codec, transport)
         == Success(StringResponse(Some(v)))
  {
    var answer := JObject(map["done_reason" := JString(v)]);
    OneLineNdjson(data, codec, line, answer);
    assert [answer][1..] == [];
    assert Extracted([answer], TopLevel, "done_reason") == [v];
    assert ErrorMessage(First([answer])).None?;
  }

  /** Called with their default arguments, `create` and `download` join two
      status lines with a comma. */
  lemma StatusDefaultsJoinWithComma(newModel: string, oldModel: string, personality: string, model: string,
                                    data: Bytes, codec: Codec, transport: Transport, line1: string, line2: string,
                                    v1: string, v2: string)
    requires line1 != [] && line2 != [] && '\n' !in line1 && '\n' !in line2
    requires codec.decodeText(data) == Some(line1 + "\n" + line2)
    requires codec.parseText(line1) == Some(JObject(map["status" := JString(v1)]))
    requires codec.parseText(line2) == Some(JObject(map["status" := JString(v2)]))
    requires transport(CreateRequest(newModel, oldModel, personality, DefaultUseStream))
          == Success(ResponseInformation(Some(200), Some(data)))
    requires transport(DownloadRequest(model, DefaultDownloadTimeout, DefaultUseStream))
          == Success(ResponseInformation(Some(200), Some(data)))
    ensures Create(newModel, oldModel, personality, DefaultShape, DefaultUseStream, DefaultStatusSeparator, codec,
                   transport) == Success(StringResponse(Some(v1 + "," + v2)))
    ensures Download(model, DefaultShape, DefaultDownloadTimeout, DefaultUseStream, DefaultStatusSeparator, codec,
                     transport) == Success(StringResponse(Some(v1 + "," + v2)))
  {
    TwoLinesJoin(data, Api.Create, codec, line1, line2, "status", v1, v2, DefaultStatusSeparator);
    TwoLinesJoin(data, Api.Download, codec, line1, line2, "status", v1, v2, DefaultStatusSeparator);
  }

  /** Called with its default arguments, `generate` concatenates the streamed
      pieces with nothing between them, and writes `stream` false and every
      optional field as `null`. */
  lemma GenerateDefaultsConcatenate(config: Config, prompt: string, data: Bytes, codec: Codec, transport: Transport,
                                    line1: string, line2: string, v1: string, v2: string)
    requires line1 != [] && line2 != [] && '\n' !in line1 && '\n' !in line2
    requires codec.decodeText(data) == Some(line1 + "\n" + line2)
    requires codec.parseText(line1) == Some(JObject(map["response" := JString(v1)]))
    requires codec.parseText(line2) == Some(JObject(map["response" := JString(v2)]))
    requires transport(GenerateRequest(config, prompt, None, None, None, DefaultUseStream, codec))
          == Success(ResponseInformation(Some(200), Some(data)))
    ensures GenerateRequest(config, prompt, None, None, None, DefaultUseStream, codec).body
         == Some(Template(GenerateFields(config.model, prompt, false, "null", "null", "null")))
    ensures Generate(config, prompt, DefaultShape, DefaultTimeout, None, None, None, DefaultUseStream,
                     DefaultSeparator, codec, transport) == Success(StringResponse(Some(v1 + v2)))
  {
    TwoLinesJoin(data, Api.Generate, codec, line1, line2, "response", v1, v2, DefaultSeparator);
    assert v1 + "" + v2 == v1 + v2;
  }

  // ---------------------------------------------------------------------------
  // Two parameters the source accepts and drops, and the forms that keep them

  /** As written, `talk` never answers with raw bytes, whatever `type` asks for. */
  lemma TalkDropsRequestedShape(config: Config, content: string, body: Option<Bytes>, timeout: real,
                                format: Option<ResponseFormat>, options: Option<ResponseOptions>,
                                images: Option<seq<Image>>, tools: Option<ResponseTools>, useStream: bool,
                                separator: string, codec: Codec, transport: Transport)
    ensures var r := Talk(config, content, DataResponse(body), timeout, format, options, images, tools, useStream,
                          separator, codec, transport);
            !(r.Success? && r.value.DataResponse?)
  {
  }

  /** `talk` with the caller's `type` passed on to `chat`. */
  function TalkWithType(config: Config, content: string, shape: ResponseType, timeout: real,
                        format: Option<ResponseFormat>, options: Option<ResponseOptions>, images: Option<seq<Image>>,
                        tools: Option<ResponseTools>, useStream: bool, separator: string, codec: Codec,
                        transport: Transport): Result<ResponseType, Error>
  {
    Chat(config, [NewMessage(User, content)], shape, timeout, format, options, images, tools, useStream, separator,
         codec, transport)
  }

  /** Asked for bytes or lines, the corrected `talk` returns them. */
  lemma TalkWithTypeHonorsShape(config: Config, content: string, timeout: real, format: Option<ResponseFormat>,
                                options: Option<ResponseOptions>, images: Option<seq<Image>>,
                                tools: Option<ResponseTools>, useStream: bool, separator: string, codec: Codec,
                                transport: Transport, json: string, info: ResponseInformation)
    requires MessagesJson([NewMessage(User, content)], codec) == Some(json)
    requires transport(ChatRequest(config, json, timeout, format, options, images, tools, useStream, codec))
          == Success(info)
    requires info.statusCode == Some(200) && info.data.Some?
    ensures TalkWithType(config, content, DataResponse(None), timeout, format, options, images, tools, useStream,
                         separator, codec, transport) == Success(DataResponse(info.data))
    ensures TalkWithType(config, content, NdjsonResponse(None), timeout, format, options, images, tools, useStream,
                         separator, codec, transport) == Success(NdjsonResponse(DecodeNdjson(info.data.value, codec)))
    ensures TalkWithType(config, content, StringResponse(None), timeout, format, options, images, tools, useStream,
                         separator, codec, transport)
         == Talk(config, content, DataResponse(None), timeout, format, options, images, tools, useStream,
                 separator, codec, transport)
  {
  }

  /** The generate request with the caller's timeout. */
  function GenerateRequestWithTimeout(config: Config, prompt: string, timeout: real, format: Option<ResponseFormat>,
                                      options: Option<ResponseOptions>, images: Option<seq<Image>>, useStream: bool,
                                      codec: Codec): Request
  {
    GenerateRequest(config, prompt, format, options, images, useStream, codec).(timeout := Some(timeout))
  }

  function GenerateWithTimeout(config: Config, prompt: string, shape: ResponseType, timeout: real,
                               format: Option<ResponseFormat>, options: Option<ResponseOptions>,
                               images: Option<seq<Image>>, useStream: bool, separator: string, codec: Codec,
                               transport: Transport): Result<ResponseType, Error>
  {
    Respond(transport(GenerateRequestWithTimeout(config, prompt, timeout, format, options, images, useStream, codec)),
      (info: ResponseInformation) => ParseResponseInformation(info, Api.Generate, shape, "response", codec, separator))
  }

  /** The corrected `generate` hands its timeout to the transport, sends the
      same body, and answers as the original does whenever the transport
      answers the same. */
  lemma GenerateWithTimeoutForwards(config: Config, prompt: string, shape: ResponseType, timeout: real,
                                    format: Option<ResponseFormat>, options: Option<ResponseOptions>,
                                    images: Option<seq<Image>>, useStream: bool, separator: string, codec: Codec,
                                    transport: Transport)
    ensures GenerateRequestWithTimeout(config, prompt, timeout, format, options, images, useStream, codec).timeout
         == Some(timeout)
    ensures GenerateRequestWithTimeout(config, prompt, timeout, format, options, images, useStream, codec).body
         == GenerateRequest(config, prompt, format, options, images, useStream, codec).body
    ensures (transport(GenerateRequestWithTimeout(config, prompt, timeout, format, options, images, useStream, codec))
             == transport(GenerateRequest(config, prompt, format, options, images, useStream, codec)))
            ==> (GenerateWithTimeout(config, prompt, shape, timeout, format, options, images, useStream, separator,
                                     codec, transport)
                 == Generate(config, prompt, shape, timeout, format, options, images, useStream, separator, codec,
                             transport))
  {
  }
}

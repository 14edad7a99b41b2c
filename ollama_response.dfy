/** The response half of WWSimpleAI_Ollama.swift: the HTTP status check, the
    first-line error check, per-line field extraction and joining, and the
    dispatch on the caller's chosen response shape. */
module OllamaResponse {
  import opened Wrappers
  import opened JsonValue
  import opened Constant
  import opened Extension

  /** What the transport hands back: the status of the HTTP response, if there
      was one, and the body bytes, if any. */
  datatype ResponseInformation = ResponseInformation(statusCode: Option<int>, data: Option<Bytes>)

  /** The shape a caller asks for and gets back; the payload of the requested
      shape is ignored. */
  datatype ResponseType =
    | StringResponse(text: Option<string>)
    | DataResponse(bytes: Option<Bytes>)
    | NdjsonResponse(lines: Option<seq<Json>>)

  /** The errors WWSimpleAI_Ollama.swift raises through its error enum. */
  datatype ClientError =
    | NotSupport
    | NotJsonString
    | SystemError(message: string)
    | HttpError(statusCode: int, body: Bytes)
    | IsEmpty

  const DefaultSuccessCodes: set<int> := {200}

  /** `parseHttpStatusCode(_:successCodes:)`. */
  function ParseHttpStatusCode(info: ResponseInformation, successCodes: set<int>): (r: Result<Bytes, ClientError>)
    ensures r == Failure(IsEmpty) <==> info.statusCode.None? || info.data.None?
    ensures r.Success? <==> info.statusCode.Some? && info.data.Some? && info.statusCode.value in successCodes
    ensures r.Success? ==> r.value == info.data.value
    ensures r.Failure? && r != Failure(IsEmpty) ==>
      info.statusCode.Some? && info.data.Some? && info.statusCode.value !in successCodes &&
      r == Failure(HttpError(info.statusCode.value, info.data.value))
  {
    if info.statusCode.None? || info.data.None? then Failure(IsEmpty)
    else if info.statusCode.value !in successCodes then Failure(HttpError(info.statusCode.value, info.data.value))
    else Success(info.data.value)
  }

  function First<T>(s: seq<T>): Option<T>
  {
    if s == [] then None else Some(s[0])
  }

  /** `errorMessage(from:)`: the `error` string of an object, if it has one. */
  function ErrorMessage(json: Option<Json>): (r: Option<string>)
    ensures r.Some? <==> json.Some? && json.value.JObject? && StringMember(json.value.members, "error").Some?
    ensures r.Some? ==> json.value.members["error"] == JString(r.value)
  {
    match json
    case Some(JObject(dict)) => StringMember(dict, "error")
    case _ => None
  }

  /** Where a field sits in one line of a response. */
  datatype FieldLocation = TopLevel | UnderMessage

  /** Which APIs `combineResponseString` can read, and where it looks. */
  function FieldRule(api: Api): (r: Option<FieldLocation>)
    ensures r == Some(UnderMessage) <==> api == Chat
    ensures r == Some(TopLevel) <==> api in {Version, Generate, Create, Download}
    ensures r.None? <==> api in {Model, Models, Delete, Ps, Copy}
  {
    match api
    case Version | Generate | Create | Download => Some(TopLevel)
    case Chat => Some(UnderMessage)
    case Model | Models | Delete | Ps | Copy => None
  }

  /** The string value of `field` in one line: `line[field]`, or
      `line["message"][field]` for chat; nothing when it is not a string. */
  function ExtractField(line: Json, location: FieldLocation, field: string): Option<string>
  {
    match AsObject(line)
    case None => None
    case Some(dict) =>
      match location
      case TopLevel => StringMember(dict, field)
      case UnderMessage =>
        match ObjectMember(dict, "message")
        case None => None
        case Some(message) => StringMember(message, field)
  }

  /** The values `combineResponseString` collects, in line order. */
  function Extracted(lines: seq<Json>, location: FieldLocation, field: string): seq<string>
  {
    CompactMap(lines, (line: Json) => ExtractField(line, location, field))
  }

  /** What `combineResponseString` returns. */
  function CombinedString(api: Api, data: Option<Bytes>, field: string, codec: Codec, separator: string)
    : Result<ResponseType, ClientError>
  {
    var decoded := if data.None? then None else DecodeNdjson(data.value, codec);
    if decoded.None? then Failure(NotJsonString)
    else if ErrorMessage(First(decoded.value)).Some? then Failure(SystemError(ErrorMessage(First(decoded.value)).value))
    else match FieldRule(api)
      case None => Failure(NotSupport)
      case Some(location) => Success(StringResponse(Some(Join(Extracted(decoded.value, location, field), separator))))
  }

  /** `combineResponseString(api:data:field:using:separator:)`, collecting the
      strings line by line. */
  method CombineResponseString(api: Api, data: Option<Bytes>, field: string, codec: Codec, separator: string)
    returns (r: Result<ResponseType, ClientError>)
    ensures r == CombinedString(api, data, field, codec, separator)
  {
    if data.None? {
      return Failure(NotJsonString);
    }
    var jsonArray := Ndjson(data.value, codec);
    if jsonArray.None? {
      return Failure(NotJsonString);
    }
    var lines := jsonArray.value;
    var errorMessage := ErrorMessage(if |lines| == 0 then None else Some(lines[0]));
    if errorMessage.Some? {
      return Failure(SystemError(errorMessage.value));
    }
    var location;
    match api {
      case Version | Generate | Create | Download => location := TopLevel;
      case Chat => location := UnderMessage;
      case Model | Models | Delete | Ps | Copy => return Failure(NotSupport);
    }
    var extract := (line: Json) => ExtractField(line, location, field);
    var stringArray: seq<string> := [];
    for i := 0 to |lines|
      invariant stringArray == CompactMap(lines[..i], extract)
    {
      var value := ExtractField(lines[i], location, field);
      CompactMapAppend(lines[..i], [lines[i]], extract);
      assert lines[..i + 1] == lines[..i] + [lines[i]];
      if value.Some? {
        stringArray := stringArray + [value.value];
      }
    }
    assert lines[..|lines|] == lines;
    return Success(StringResponse(Some(Join(stringArray, separator))));
  }

  /** `parseResponseInformation(_:api:forType:field:using:separator:)`. */
  function ParseResponseInformation(info: ResponseInformation, api: Api, shape: ResponseType, field: string,
                                    codec: Codec, separator: string): Result<ResponseType, ClientError>
  {
    match ParseHttpStatusCode(info, DefaultSuccessCodes)
    case Failure(e) => Failure(e)
    case Success(data) =>
      match shape
      case StringResponse(_) => CombinedString(api, Some(data), field, codec, separator)
      case DataResponse(_) => Success(DataResponse(Some(data)))
      case NdjsonResponse(_) => Success(NdjsonResponse(DecodeNdjson(data, codec)))
  }

  // ---------------------------------------------------------------------------
  // Properties of the pipeline

  /** The status check comes first: a missing response or body is `isEmpty`, any
      status but 200 is `httpError` with the raw body, whatever the body says and
      whatever shape was asked for. */
  lemma HttpCheckFirst(info: ResponseInformation, api: Api, shape: ResponseType, field: string,
                       codec: Codec, separator: string)
    ensures info.statusCode.None? || info.data.None? ==>
      ParseResponseInformation(info, api, shape, field, codec, separator) == Failure(IsEmpty)
    ensures info.statusCode.Some? && info.data.Some? && info.statusCode.value != 200 ==>
      ParseResponseInformation(info, api, shape, field, codec, separator)
        == Failure(HttpError(info.statusCode.value, info.data.value))
  {
  }

  /** A 404 whose body reports an error is still an HTTP error, not a system error. */
  lemma HttpErrorBeatsSystemError(body: Bytes, api: Api, shape: ResponseType, field: string,
                                  codec: Codec, separator: string, rest: seq<Json>, dict: map<string, Json>,
                                  message: string)
    requires DecodeNdjson(body, codec) == Some([JObject(dict)] + rest)
    requires "error" in dict && dict["error"] == JString(message)
    ensures CombinedString(api, Some(body), field, codec, separator) == Failure(SystemError(message))
    ensures ParseResponseInformation(ResponseInformation(Some(404), Some(body)), api, shape, field, codec, separator)
      == Failure(HttpError(404, body))
  {
  }

  /** With status 200 the data shape hands back the body untouched and the ndjson
      shape hands back exactly `_ndjson` of it; neither looks for an `error` key. */
  lemma RawShapes(body: Bytes, api: Api, field: string, codec: Codec, separator: string,
                  b: Option<Bytes>, j: Option<seq<Json>>)
    ensures ParseResponseInformation(ResponseInformation(Some(200), Some(body)), api, DataResponse(b), field, codec, separator)
      == Success(DataResponse(Some(body)))
    ensures ParseResponseInformation(ResponseInformation(Some(200), Some(body)), api, NdjsonResponse(j), field, codec, separator)
      == Success(NdjsonResponse(DecodeNdjson(body, codec)))
  {
  }

  /** The payload inside the requested shape never matters, for any of the three shapes. */
  lemma RequestedPayloadIgnored(info: ResponseInformation, api: Api, field: string, codec: Codec, separator: string,
                                s1: Option<string>, s2: Option<string>, b1: Option<Bytes>, b2: Option<Bytes>,
                                j1: Option<seq<Json>>, j2: Option<seq<Json>>)
    ensures ParseResponseInformation(info, api, StringResponse(s1), field, codec, separator)
         == ParseResponseInformation(info, api, StringResponse(s2), field, codec, separator)
    ensures ParseResponseInformation(info, api, DataResponse(b1), field, codec, separator)
         == ParseResponseInformation(info, api, DataResponse(b2), field, codec, separator)
    ensures ParseResponseInformation(info, api, NdjsonResponse(j1), field, codec, separator)
         == ParseResponseInformation(info, api, NdjsonResponse(j2), field, codec, separator)
  {
  }

  /** Text that does not decode is `notJSONString`, before the api is even looked at. */
  lemma UndecodableIsNotJson(api: Api, data: Bytes, field: string, codec: Codec, separator: string)
    requires codec.decodeText(data).None?
    ensures CombinedString(api, Some(data), field, codec, separator) == Failure(NotJsonString)
    ensures CombinedString(api, None, field, codec, separator) == Failure(NotJsonString)
  {
  }

  /** An error reported on the first decoded line fails every api, the
      unsupported ones included. */
  lemma FirstLineErrorWins(api: Api, data: Bytes, field: string, codec: Codec, separator: string, rest: seq<Json>,
                           dict: map<string, Json>, message: string)
    requires DecodeNdjson(data, codec) == Some([JObject(dict)] + rest)
    requires "error" in dict && dict["error"] == JString(message)
    ensures CombinedString(api, Some(data), field, codec, separator) == Failure(SystemError(message))
  {
  }

  /** Lines after the first are never checked for `error`: with a clean first
      line, the result is the joined values of the supported api or `notSupport`,
      never a system error. */
  lemma LaterErrorsIgnored(api: Api, data: Bytes, field: string, codec: Codec, separator: string)
    requires DecodeNdjson(data, codec).Some?
    requires ErrorMessage(First(DecodeNdjson(data, codec).value)).None?
    ensures var r := CombinedString(api, Some(data), field, codec, separator);
      match FieldRule(api)
      case None => r == Failure(NotSupport)
      case Some(location) =>
        r == Success(StringResponse(Some(Join(Extracted(DecodeNdjson(data, codec).value, location, field), separator))))
  {
  }

  /** Nothing extracted, even from no lines at all, is a success with the empty string. */
  lemma NothingExtractedIsEmptySuccess(api: Api, data: Bytes, field: string, codec: Codec, separator: string)
    requires FieldRule(api).Some?
    requires DecodeNdjson(data, codec).Some?
    requires ErrorMessage(First(DecodeNdjson(data, codec).value)).None?
    requires Extracted(DecodeNdjson(data, codec).value, FieldRule(api).value, field) == []
    ensures CombinedString(api, Some(data), field, codec, separator) == Success(StringResponse(Some("")))
  {
  }

  lemma EmptyTextIsEmptySuccess(api: Api, data: Bytes, field: string, codec: Codec, separator: string)
    requires FieldRule(api).Some? && codec.decodeText(data) == Some("")
    ensures CombinedString(api, Some(data), field, codec, separator) == Success(StringResponse(Some("")))
  {
  }

  /** Chat reads the field under `message`, everything else reads it at the top
      level; a line whose value is missing or not a string is skipped. */
  lemma FieldLocations(line: Json, field: string)
    ensures ExtractField(line, TopLevel, field).Some? <==>
      line.JObject? && field in line.members && line.members[field].JString?
    ensures ExtractField(line, TopLevel, field).Some? ==>
      line.members[field] == JString(ExtractField(line, TopLevel, field).value)
    ensures ExtractField(line, UnderMessage, field).Some? <==>
      line.JObject? && "message" in line.members && line.members["message"].JObject? &&
      field in line.members["message"].members && line.members["message"].members[field].JString?
    ensures ExtractField(line, UnderMessage, field).Some? ==>
      line.members["message"].members[field] == JString(ExtractField(line, UnderMessage, field).value)
  {
  }

  /** Two top-level lines, each carrying a string under `field`, join to the two
      strings around the separator, for every api that reads at the top level. */
  lemma TwoLinesJoin(data: Bytes, api: Api, codec: Codec, line1: string, line2: string, field: string,
                     v1: string, v2: string, separator: string)
    requires FieldRule(api) == Some(TopLevel)
    requires line1 != [] && line2 != [] && '\n' !in line1 && '\n' !in line2 && field != "error"
    requires codec.decodeText(data) == Some(line1 + "\n" + line2)
    requires codec.parseText(line1) == Some(JObject(map[field := JString(v1)]))
    requires codec.parseText(line2) == Some(JObject(map[field := JString(v2)]))
    ensures CombinedString(api, Some(data), field, codec, separator) == Success(StringResponse(Some(v1 + separator + v2)))
    ensures ParseResponseInformation(ResponseInformation(Some(200), Some(data)), api, StringResponse(None),
                                     field, codec, separator) == Success(StringResponse(Some(v1 + separator + v2)))
  {
    var l1, l2 := JObject(map[field := JString(v1)]), JObject(map[field := JString(v2)]);
    SplitAt(line1, line2, '\n');
    SplitWithout(line2, '\n');
    assert Split(line1 + "\n" + line2, '\n') == [line1, line2];
    assert [line1, line2][1..] == [line2] && [line2][1..] == [];
    assert CompactMap([line1, line2], codec.parseText) == [l1, l2];
    assert DecodeNdjson(data, codec) == Some([l1, l2]);
    var extract := (line: Json) => ExtractField(line, TopLevel, field);
    assert [l1, l2][1..] == [l2] && [l2][1..] == [];
    assert CompactMap([l1, l2], extract) == [v1, v2];
    assert ErrorMessage(First([l1, l2])).None?;
    assert [v1, v2][1..] == [v2];
    assert Join([v1, v2], separator) == v1 + separator + v2;
  }

  /** The worked example: two generate lines `{"response":"a"}` and
      `{"response":"b"}` joined with "," give "a,b". */
  lemma JoinExample(data: Bytes, codec: Codec, line1: string, line2: string)
    requires line1 == "{\"response\":\"a\"}" && line2 == "{\"response\":\"b\"}"
    requires codec.decodeText(data) == Some(line1 + "\n" + line2)
    requires codec.parseText(line1) == Some(JObject(map["response" := JString("a")]))
    requires codec.parseText(line2) == Some(JObject(map["response" := JString("b")]))
    ensures ParseResponseInformation(ResponseInformation(Some(200), Some(data)), Generate, StringResponse(None),
                                     "response", codec, ",") == Success(StringResponse(Some("a,b")))
  {
    assert '\n' !in line1;
    assert '\n' !in line2;
    TwoLinesJoin(data, Generate, codec, line1, line2, "response", "a", "b", ",");
    assert "a" + "," + "b" == "a,b";
  }
}

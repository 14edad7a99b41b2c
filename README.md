# WWSimpleAI_Ollama in Dafny

A model of the core of WWSimpleAI_Ollama, a Swift client for a local Ollama
server, together with the streaming logic of its demo app.

- The client builds JSON request bodies from fixed multi-line templates.
- It sends them through a transport and checks the HTTP status.
- It then returns the answer in the shape the caller asked for:
  - the raw bytes;
  - the newline-delimited JSON lines;
  - one string joined from a field of every line.
- The demo view controller keeps two fields, `isDismiss` and `responseString`, updated by the server-sent-events callbacks.

Modules, one per source file, plus two shared ones:

- `Wrappers`: `Option` and `Result`.
- `JsonValue`: the JSON values the foreign parsers produce, and the `as? [String: Any]` / `as? String` casts.
- `Constant` (Utility/Constant.swift):
  - MIME types, file extensions and image headers;
  - the `API` cases and their URL;
  - roles, the format, options and tools payloads;
  - the two-case `CustomError`.
- `Extension` (Utility/Extension.swift) holds the foreign codecs as a `Codec` value of functions. It also has:
  - `compactMap`, `joined(separator:)` and `split(separator:)`;
  - the decimal text of an `Int`;
  - `Bool._int`;
  - `_base64String`;
  - `_ndjson`, as a loop method proved equal to the function `DecodeNdjson`.
- `MessageModel` (Utility/Model.swift): `MessageInformation`, its initializer and its two coding keys.
- `OllamaResponse` (the response half of WWSimpleAI_Ollama.swift):
  - `parseHttpStatusCode` and `errorMessage`;
  - `parseResponseInformation`;
  - `combineResponseString`, as a loop method proved equal to the function `CombinedString`.
- `Ollama` (the request half): the body templates and every public operation, with the transport as a parameter.
- `Example` (Example/Example/ViewController/ViewController.swift):
  - the pure step functions of the two callbacks;
  - trace lemmas over them;
  - a `ViewController` class whose methods update the fields in place, with the HUD and the text view as ghost fields.

All body templates share one layout:

- an opening brace on its own line;
- one `  "key": value` line per field, with the lines separated by `,\n`;
- a closing brace.

`Ollama.Template` renders that layout from a list of key/value pairs. Each body is `Template` applied to that body's own field list (`GenerateFields`, `ChatFields`, …). String values are pasted in between quotes without escaping.

Where a plain reading of the API and its code disagree, the model follows the code:

- A body with no lines, or no line carrying the field, gives success with the empty string, not an error.
- The byte and line shapes never look for an `error` key.
- The two load bodies have no `stream` key.
- `generate` does not pass its timeout to the transport.
- `talk` does not pass its `type` to `chat`.

## Model

| member | source | states |
|---|---|---|
| `Constant.MimeType.FileExtensionMaker` | Sources/WWSimpleAI_Ollama/Utility/Constant.swift:45-57 | the extension is a dot followed by a non-empty, dot-free case name |
| `Constant.MimeType.MimeTypeMaker` | Sources/WWSimpleAI_Ollama/Utility/Constant.swift:60-84 | the MIME type of each file kind; its contract is stated by `JpegQualityIgnored` (every JPEG quality gives `image/jpeg`) |
| `Constant.JpegQualityIgnored` | Sources/WWSimpleAI_Ollama/Utility/Constant.swift:60-84 | `jpeg` gives `image/jpeg` and `.jpeg` whatever its compression quality |
| `Constant.FileExtensionInjective` | Sources/WWSimpleAI_Ollama/Utility/Constant.swift:45-57 | two MIME types with the same extension are the same case (jpeg qualities aside) |
| `Constant.ImageFormat.HeaderMaker` | Sources/WWSimpleAI_Ollama/Utility/Constant.swift:105-119 | the magic bytes of each image format; stated by `HeaderShapes` (their lengths and the heic/avif prefix) and `HeadersPrefixFree` |
| `Constant.HeaderShapes` | Sources/WWSimpleAI_Ollama/Utility/Constant.swift:105-119 | png has 8 header bytes, jpeg 3, webp/heic/avif 12, svg none; heic and avif agree on their first 8 bytes and differ after |
| `Constant.HeadersPrefixFree` | Sources/WWSimpleAI_Ollama/Utility/Constant.swift:105-119 | no non-empty header of one format is a prefix of another format's header |
| `Constant.Api.Url` | Sources/WWSimpleAI_Ollama/Utility/Constant.swift:134-144 | only generate and chat have a shown path; their URL is the base URL followed by `/` and the path |
| `Constant.UrlKeepsTrailingSlash` | Sources/WWSimpleAI_Ollama/Utility/Constant.swift:143 | a base URL ending in `/` yields a doubled slash: no normalisation |
| `Constant.Role.Name` | Sources/WWSimpleAI_Ollama/Utility/Constant.swift:156-162 | a custom role's name is its own text |
| `Constant.RoleNameNotInjective` | Sources/WWSimpleAI_Ollama/Utility/Constant.swift:156-162 | `custom("user")` and `user` share a name although they are different roles |
| `Constant.RoleNameSurjective` | Sources/WWSimpleAI_Ollama/Utility/Constant.swift:156-162 | every string is the name of the custom role of that text, and of `user` or `assistant` exactly when it is that word; of no other role |
| `Constant.ResponseFormat.Value` | Sources/WWSimpleAI_Ollama/Utility/Constant.swift:180-185 | a string format is its text between two quotes; a JSON format is its text unchanged |
| `Constant.ResponseOptions.Value` | Sources/WWSimpleAI_Ollama/Utility/Constant.swift:195-199 | the options payload is passed through unchanged |
| `Constant.ResponseTools.Value` | Sources/WWSimpleAI_Ollama/Utility/Constant.swift:209-213 | the tools payload is passed through unchanged |
| `Constant.StringFormatUnescaped` | Sources/WWSimpleAI_Ollama/Utility/Constant.swift:182 | a quote inside a string format is not escaped |
| `Constant.CustomError.Message` | Sources/WWSimpleAI_Ollama/Utility/Constant.swift:224-230 | every error has a non-empty message |
| `Constant.CustomErrorMessages` | Sources/WWSimpleAI_Ollama/Utility/Constant.swift:227-228 | the two messages are the fixed texts, and they differ |
| `Extension.CompactMap` | Sources/WWSimpleAI_Ollama/Utility/Extension.swift:18 | `compactMap` never lengthens its input |
| `Extension.CompactMapLength` | Sources/WWSimpleAI_Ollama/Utility/Extension.swift:18 | the output is exactly as long as the input minus the rejected elements |
| `Extension.CompactMapAppend` | Sources/WWSimpleAI_Ollama/Utility/Extension.swift:18 | `compactMap` distributes over concatenation, so it keeps order |
| `Extension.Base64StringsShape` | Sources/WWSimpleAI_Ollama/Utility/Extension.swift:17-19 | images that fail to encode are dropped, the rest stay in order, and with no failure the length is kept |
| `Extension.Base64Strings` | Sources/WWSimpleAI_Ollama/Utility/Extension.swift:17-19 | `[UIImage]._base64String(mimeType:)`; stated by `Base64StringsShape` |
| `Extension.Join` | Sources/WWSimpleAI_Ollama/WWSimpleAI_Ollama.swift:595 | `joined(separator:)`; stated by `TwoLinesJoin` (two parts around one separator) and `SplitAllJoin` |
| `Extension.Split` | Sources/WWSimpleAI_Ollama/Utility/Extension.swift:97 | `split(separator:)` with empty pieces omitted; stated by `SplitPieces`, `SplitAt` and `SplitWithout` |
| `Extension.SplitAllJoin` | Sources/WWSimpleAI_Ollama/Utility/Extension.swift:97 | splitting at every separator and joining back gives the text again |
| `Extension.SplitPieces` | Sources/WWSimpleAI_Ollama/Utility/Extension.swift:97 | the pieces of `split` are non-empty and hold no separator; there are none exactly when the text is nothing but separators |
| `Extension.SplitAt` | Sources/WWSimpleAI_Ollama/Utility/Extension.swift:97 | a non-empty piece before a separator is the first piece of the split |
| `Extension.SplitWithout` | Sources/WWSimpleAI_Ollama/Utility/Extension.swift:97 | text with no separator splits into itself, or into nothing when empty |
| `Extension.DecimalRoundTrip` | Sources/WWSimpleAI_Ollama/WWSimpleAI_Ollama.swift:459 | the decimal text of an integer reads back as the same integer |
| `Extension.DecimalString` | Sources/WWSimpleAI_Ollama/WWSimpleAI_Ollama.swift:459 | the decimal text interpolation writes for an `Int` (also Example/Example/ViewController/ViewController.swift:208, and line 486); stated by `DecimalRoundTrip` and `BoolToIntText` |
| `Extension.BoolToInt` | Sources/WWSimpleAI_Ollama/Utility/Extension.swift:53 | `_int` is 1 exactly for true and 0 for false |
| `Extension.BoolToIntText` | Sources/WWSimpleAI_Ollama/Utility/Extension.swift:53 | interpolated, true is `1` and false is `0` |
| `Extension.DecodeNdjson` | Sources/WWSimpleAI_Ollama/Utility/Extension.swift:91-103 | the value `_ndjson` returns; stated by `NdjsonFailsOnlyOnText` and `NdjsonLines`, and computed by the loop `Ndjson` |
| `Extension.Ndjson` | Sources/WWSimpleAI_Ollama/Utility/Extension.swift:91-103 | the loop returns the specified line decoding |
| `Extension.NdjsonFailsOnlyOnText` | Sources/WWSimpleAI_Ollama/Utility/Extension.swift:93-102 | decoding fails only when the bytes are not text; empty text gives no lines |
| `Extension.NdjsonLines` | Sources/WWSimpleAI_Ollama/Utility/Extension.swift:95-101 | the lines are the parseable pieces in order: their count is the number of pieces minus the unparseable ones, and each comes from a piece |
| `MessageModel.NewMessage` | Sources/WWSimpleAI_Ollama/Utility/Model.swift:20-24 | the role is the role type's name, the content is the argument |
| `MessageModel.Encode` | Sources/WWSimpleAI_Ollama/Utility/Model.swift:14-29 | the synthesized `encode(to:)`; stated by `EncodeWritesCodingKeys` and the round trips |
| `MessageModel.Decode` | Sources/WWSimpleAI_Ollama/Utility/Model.swift:14-29 | the synthesized `init(from:)`; stated by `RoundTrip`, `DecodeThenEncode` and `CustomRoleRoundTrip` |
| `MessageModel.EncodeAll` | Sources/WWSimpleAI_Ollama/WWSimpleAI_Ollama.swift:136 | a message list encodes element by element, in order |
| `MessageModel.EncodeWritesCodingKeys` | Sources/WWSimpleAI_Ollama/Utility/Model.swift:26-29 | exactly `role` and `content` are written; the role type never is |
| `MessageModel.RoundTrip` | Sources/WWSimpleAI_Ollama/Utility/Model.swift:13-29 | decoding an encoded message keeps role and content and resets the role type to user |
| `MessageModel.DecodeThenEncode` | Sources/WWSimpleAI_Ollama/Utility/Model.swift:13-29 | a decoded message re-encodes to the two coding keys of its source, other keys dropped |
| `MessageModel.RoundTripAll` | Sources/WWSimpleAI_Ollama/Utility/Model.swift:13-29 | the round trip holds for whole message lists |
| `MessageModel.CustomRoleRoundTrip` | Sources/WWSimpleAI_Ollama/Utility/Model.swift:18-22 | a custom role survives as its name but not as its role type |
| `OllamaResponse.ParseHttpStatusCode` | Sources/WWSimpleAI_Ollama/WWSimpleAI_Ollama.swift:617-627 | a missing response or body is `isEmpty`; a status outside the success set is `httpError` with the body; otherwise the body unchanged |
| `OllamaResponse.ErrorMessage` | Sources/WWSimpleAI_Ollama/WWSimpleAI_Ollama.swift:601-610 | a message exists exactly when the value is an object whose `error` is a string |
| `OllamaResponse.FieldRule` | Sources/WWSimpleAI_Ollama/WWSimpleAI_Ollama.swift:538-592 | chat reads under `message`; version, generate, create and download read at the top; the rest are unsupported |
| `OllamaResponse.ExtractField` | Sources/WWSimpleAI_Ollama/WWSimpleAI_Ollama.swift:541-590 | the string one line yields; stated by `FieldLocations` |
| `OllamaResponse.CombinedString` | Sources/WWSimpleAI_Ollama/WWSimpleAI_Ollama.swift:530-596 | what `combineResponseString` returns; stated by `UndecodableIsNotJson`, `FirstLineErrorWins`, `LaterErrorsIgnored`, `NothingExtractedIsEmptySuccess`, `EmptyTextIsEmptySuccess` and `TwoLinesJoin` |
| `OllamaResponse.CombineResponseString` | Sources/WWSimpleAI_Ollama/WWSimpleAI_Ollama.swift:530-596 | the loop returns the specified combined string |
| `OllamaResponse.ParseResponseInformation` | Sources/WWSimpleAI_Ollama/WWSimpleAI_Ollama.swift:507-520 | the dispatch on the requested shape; stated by `HttpCheckFirst`, `RawShapes`, `RequestedPayloadIgnored` and `HttpErrorBeatsSystemError` |
| `OllamaResponse.HttpCheckFirst` | Sources/WWSimpleAI_Ollama/WWSimpleAI_Ollama.swift:507-513 | the status check decides before any decoding, for every shape |
| `OllamaResponse.HttpErrorBeatsSystemError` | Sources/WWSimpleAI_Ollama/WWSimpleAI_Ollama.swift:509-534 | a body whose first line is an object with an `error` string is `systemError` under 200 but `httpError` under 404 |
| `OllamaResponse.RawShapes` | Sources/WWSimpleAI_Ollama/WWSimpleAI_Ollama.swift:516-517 | the byte shape returns the body unchanged; the line shape returns exactly its line decoding |
| `OllamaResponse.RequestedPayloadIgnored` | Sources/WWSimpleAI_Ollama/WWSimpleAI_Ollama.swift:514-518 | the payload inside the requested shape, string, data or ndjson, does not affect the answer |
| `OllamaResponse.UndecodableIsNotJson` | Sources/WWSimpleAI_Ollama/WWSimpleAI_Ollama.swift:532 | a body that is not text, or no body, is `notJSONString` |
| `OllamaResponse.FirstLineErrorWins` | Sources/WWSimpleAI_Ollama/WWSimpleAI_Ollama.swift:534 | an `error` string on the first line is `systemError` with that message, for every api |
| `OllamaResponse.LaterErrorsIgnored` | Sources/WWSimpleAI_Ollama/WWSimpleAI_Ollama.swift:534-595 | without an error on the first line the answer never is `systemError` |
| `OllamaResponse.NothingExtractedIsEmptySuccess` | Sources/WWSimpleAI_Ollama/WWSimpleAI_Ollama.swift:536-595 | for a supported api, no extracted string gives success with the empty string |
| `OllamaResponse.EmptyTextIsEmptySuccess` | Sources/WWSimpleAI_Ollama/WWSimpleAI_Ollama.swift:532-595 | an empty body gives success with the empty string |
| `OllamaResponse.FieldLocations` | Sources/WWSimpleAI_Ollama/WWSimpleAI_Ollama.swift:538-590 | a line yields a string exactly when the field (top-level or under `message`) holds a string, and it yields that string |
| `OllamaResponse.TwoLinesJoin` | Sources/WWSimpleAI_Ollama/WWSimpleAI_Ollama.swift:530-595 | for every api reading at the top level, two lines each carrying the field join, in order, with the separator between them |
| `OllamaResponse.JoinExample` | Sources/WWSimpleAI_Ollama/WWSimpleAI_Ollama.swift:530-595 | two lines `{"response":"a"}` and `{"response":"b"}` joined with `,` give `a,b` |
| `Ollama.Quoted` | Sources/WWSimpleAI_Ollama/WWSimpleAI_Ollama.swift:86-87 | an interpolated string value is its text between two quotes, unescaped |
| `Ollama.BoolLiteral` | Sources/WWSimpleAI_Ollama/WWSimpleAI_Ollama.swift:88 | an interpolated boolean is `true` or `false` |
| `Ollama.OrNull` | Sources/WWSimpleAI_Ollama/WWSimpleAI_Ollama.swift:80-82 | an absent value renders as `null`, a present one as itself |
| `Ollama.FormatValue` | Sources/WWSimpleAI_Ollama/WWSimpleAI_Ollama.swift:80 | `format?.value() ?? nullValue`; stated by `AbsentOptionalsAreNull`, with the present case by `Constant.ResponseFormat.Value` |
| `Ollama.OptionsValue` | Sources/WWSimpleAI_Ollama/WWSimpleAI_Ollama.swift:81 | `options?.value() ?? nullValue`; stated by `AbsentOptionalsAreNull` and `Constant.ResponseOptions.Value` |
| `Ollama.ToolsValue` | Sources/WWSimpleAI_Ollama/WWSimpleAI_Ollama.swift:141 | `tools?.value() ?? nullValue`; stated by `AbsentOptionalsAreNull` and `Constant.ResponseTools.Value` |
| `Ollama.ImagesValue` | Sources/WWSimpleAI_Ollama/WWSimpleAI_Ollama.swift:82 | absent images are `null`, present ones the JSON text of their JPEG base64 encodings; stated by `AbsentOptionalsAreNull` and `Base64StringsShape` |
| `Ollama.MessagesJson` | Sources/WWSimpleAI_Ollama/WWSimpleAI_Ollama.swift:136 | the JSON text of the encoded messages; stated by `TalkMessage` and `ChatEncodingFailure` |
| `Ollama.Template` | Sources/WWSimpleAI_Ollama/WWSimpleAI_Ollama.swift:84-93 | the multi-line literal layout of every body; stated by `TemplateLine` and `PromptVerbatim` |
| `Ollama.GenerateFields` | Sources/WWSimpleAI_Ollama/WWSimpleAI_Ollama.swift:84-93 | the fields of that body literal, in order; stated by `BodyKeys` and `TemplateLine` |
| `Ollama.ChatFields` | Sources/WWSimpleAI_Ollama/WWSimpleAI_Ollama.swift:144-153 | the fields of that body literal, in order; stated by `BodyKeys` and `TemplateLine` |
| `Ollama.CreateFields` | Sources/WWSimpleAI_Ollama/WWSimpleAI_Ollama.swift:182-189 | the fields of that body literal, in order; stated by `BodyKeys` and `TemplateLine` |
| `Ollama.DeleteFields` | Sources/WWSimpleAI_Ollama/WWSimpleAI_Ollama.swift:219-223 | the fields of that body literal, in order; stated by `BodyKeys` and `TemplateLine` |
| `Ollama.CopyFields` | Sources/WWSimpleAI_Ollama/WWSimpleAI_Ollama.swift:249-254 | the fields of that body literal, in order; stated by `BodyKeys` and `TemplateLine` |
| `Ollama.DownloadFields` | Sources/WWSimpleAI_Ollama/WWSimpleAI_Ollama.swift:284-289 | the fields of that body literal, in order; stated by `BodyKeys` and `TemplateLine` |
| `Ollama.DocumentFields` | Sources/WWSimpleAI_Ollama/WWSimpleAI_Ollama.swift:375-380 | the fields of that body literal, in order; stated by `BodyKeys` and `TemplateLine` |
| `Ollama.LoadGenerateFields` | Sources/WWSimpleAI_Ollama/WWSimpleAI_Ollama.swift:456-461 | the fields of the generate load body; stated by `BodyKeys` and `LoadBodiesKeepAlive` |
| `Ollama.LoadChatFields` | Sources/WWSimpleAI_Ollama/WWSimpleAI_Ollama.swift:482-488 | the fields of the chat load body; stated by `BodyKeys` and `LoadBodiesKeepAlive` |
| `Ollama.GenerateRequest` | Sources/WWSimpleAI_Ollama/WWSimpleAI_Ollama.swift:95 | the request handed to the transport: POST, no timeout; stated by `TimeoutForwarding`, `PromptVerbatim`, `AbsentOptionalsAreNull` and `RequestUrls` |
| `Ollama.ChatRequest` | Sources/WWSimpleAI_Ollama/WWSimpleAI_Ollama.swift:156 | the request handed to the transport: POST with the timeout; stated by `TimeoutForwarding`, `AbsentOptionalsAreNull` and `RequestUrls` |
| `Ollama.LoadGenerateRequest` | Sources/WWSimpleAI_Ollama/WWSimpleAI_Ollama.swift:463 | the request handed to the transport: POST to the generate api; stated by `LoadBodiesKeepAlive` and `RequestUrls` |
| `Ollama.LoadChatRequest` | Sources/WWSimpleAI_Ollama/WWSimpleAI_Ollama.swift:490 | the request handed to the transport: POST to the chat api; stated by `LoadBodiesKeepAlive`, `RequestUrls` and `LoadChatParsesLikeGenerate` |
| `Ollama.CreateRequest` | Sources/WWSimpleAI_Ollama/WWSimpleAI_Ollama.swift:191 | the request handed to the transport: POST, no timeout; stated by `BodyKeys` and `StatusDefaultsJoinWithComma` |
| `Ollama.DownloadRequest` | Sources/WWSimpleAI_Ollama/WWSimpleAI_Ollama.swift:291 | the request handed to the transport: POST with the timeout; stated by `TimeoutForwarding` and `StatusDefaultsJoinWithComma` |
| `Ollama.DeleteRequest` | Sources/WWSimpleAI_Ollama/WWSimpleAI_Ollama.swift:225 | the request handed to the transport: DELETE; stated by `DeleteCopyOutcome` |
| `Ollama.CopyRequest` | Sources/WWSimpleAI_Ollama/WWSimpleAI_Ollama.swift:256 | the request handed to the transport: POST; stated by `DeleteCopyOutcome` |
| `Ollama.DocumentRequest` | Sources/WWSimpleAI_Ollama/WWSimpleAI_Ollama.swift:382 | the request handed to the transport: POST to the model api; stated by `BodyKeys` |
| `Ollama.UrlString` | Sources/WWSimpleAI_Ollama/WWSimpleAI_Ollama.swift:95 | `urlString: api.url()` under the configured base URL; stated by `RequestUrls` |
| `Ollama.RequestUrls` | Sources/WWSimpleAI_Ollama/WWSimpleAI_Ollama.swift:95 | generate and its load go to the base URL plus `/api/generate`, chat and its load to the base URL plus `/api/chat` |
| `Ollama.TemplateLine` | Sources/WWSimpleAI_Ollama/WWSimpleAI_Ollama.swift:84-93 | every field is one whole line of the body, after a newline and before `,\n` or the closing `\n}` |
| `Ollama.BodyKeys` | Sources/WWSimpleAI_Ollama/WWSimpleAI_Ollama.swift:84-488 | the keys each body writes, in the source's order; the load bodies write no `stream` |
| `Ollama.PromptVerbatim` | Sources/WWSimpleAI_Ollama/WWSimpleAI_Ollama.swift:87 | the prompt appears verbatim between quotes on the second line of the generate body |
| `Ollama.AbsentOptionalsAreNull` | Sources/WWSimpleAI_Ollama/WWSimpleAI_Ollama.swift:80-153 | absent format, options, images and tools render as `null` in the generate and chat bodies |
| `Ollama.LoadBodiesKeepAlive` | Sources/WWSimpleAI_Ollama/WWSimpleAI_Ollama.swift:456-488 | loading writes `keep_alive` 1, evicting 0; the chat load adds an empty `messages` |
| `Ollama.Respond` | Sources/WWSimpleAI_Ollama/WWSimpleAI_Ollama.swift:97-100 | a transport failure passes through; otherwise the handler's result is returned |
| `Ollama.StatusResult` | Sources/WWSimpleAI_Ollama/WWSimpleAI_Ollama.swift:195-206 | the inline answer handling of `create` (and of `download`, lines 297-307); stated by `StatusResultIsParse` |
| `Ollama.StatusSucceeded` | Sources/WWSimpleAI_Ollama/WWSimpleAI_Ollama.swift:231-236 | the answer handling of `delete` (and of `copy`, lines 262-267); stated by `DeleteCopyOutcome` |
| `Ollama.ModelList` | Sources/WWSimpleAI_Ollama/WWSimpleAI_Ollama.swift:343-361 | the guards of `models` (and of `processStatus`, lines 418-436); stated by `ModelListGuards` |
| `Ollama.DocumentResult` | Sources/WWSimpleAI_Ollama/WWSimpleAI_Ollama.swift:388-400 | the guards of `document`; stated by `DocumentGuards` |
| `Ollama.TimeoutForwarding` | Sources/WWSimpleAI_Ollama/WWSimpleAI_Ollama.swift:77-101 | generate sends no timeout and its answer does not depend on it; chat and download send theirs |
| `Ollama.ChatEncodingFailure` | Sources/WWSimpleAI_Ollama/WWSimpleAI_Ollama.swift:136 | messages that cannot be encoded give `notJSONString` whatever the transport would do |
| `Ollama.TalkMessage` | Sources/WWSimpleAI_Ollama/WWSimpleAI_Ollama.swift:117 | talk sends one user message holding the content |
| `Ollama.TalkAnswersString` | Sources/WWSimpleAI_Ollama/WWSimpleAI_Ollama.swift:116-119 | talk answers as chat with the string shape and the `content` field, whatever shape its caller asked for |
| `Ollama.StatusResultIsParse` | Sources/WWSimpleAI_Ollama/WWSimpleAI_Ollama.swift:195-206 | create and download answer as the shared parser does with the `status` field |
| `Ollama.DeleteCopyOutcome` | Sources/WWSimpleAI_Ollama/WWSimpleAI_Ollama.swift:227-236 | delete and copy never give false; they give true exactly when the transport answers status 200 with a body |
| `Ollama.ModelListGuards` | Sources/WWSimpleAI_Ollama/WWSimpleAI_Ollama.swift:343-361 | status first; not an object or no `models` array is `notJSONString`; failed or empty decoding is `isEmpty`; a success is never empty |
| `Ollama.DocumentGuards` | Sources/WWSimpleAI_Ollama/WWSimpleAI_Ollama.swift:388-400 | status first; a body that is not an object or does not decode is `notJSONString`; a success is the decoded object |
| `Ollama.LoadIntoMemoryRefuses` | Sources/WWSimpleAI_Ollama/WWSimpleAI_Ollama.swift:55-63 | exactly the apis other than generate and chat give `notSupport`, for every transport, so no request is made |
| `Ollama.LoadChatParsesLikeGenerate` | Sources/WWSimpleAI_Ollama/WWSimpleAI_Ollama.swift:490-494 | given the same answer, the chat load returns what the generate load returns |
| `Ollama.LoadIntoMemory` | Sources/WWSimpleAI_Ollama/WWSimpleAI_Ollama.swift:55-63 | `loadIntoMemory`; stated by `LoadIntoMemoryRefuses`, `LoadChatParsesLikeGenerate`, `LoadBodiesKeepAlive` and `LoadAnswers` |
| `Ollama.LoadAnswers` | Sources/WWSimpleAI_Ollama/WWSimpleAI_Ollama.swift:452-494 | loading through generate or chat, answered 200 with one line `{"done_reason": v}`, gives the string `v` |
| `Ollama.Generate` | Sources/WWSimpleAI_Ollama/WWSimpleAI_Ollama.swift:77-101 | `generate`; stated by `TimeoutForwarding`, `PromptVerbatim`, `AbsentOptionalsAreNull` and `GenerateDefaultsConcatenate` |
| `Ollama.Talk` | Sources/WWSimpleAI_Ollama/WWSimpleAI_Ollama.swift:116-119 | `talk`; stated by `TalkMessage`, `TalkAnswersString` and `TalkDropsRequestedShape` |
| `Ollama.Chat` | Sources/WWSimpleAI_Ollama/WWSimpleAI_Ollama.swift:134-162 | `chat`; stated by `ChatEncodingFailure`, `TimeoutForwarding`, `AbsentOptionalsAreNull`, `ChatAnswers` and `TalkAnswersString` |
| `Ollama.ChatAnswers` | Sources/WWSimpleAI_Ollama/WWSimpleAI_Ollama.swift:134-162 | a chat of any messages that encode, answered 200 with one line `{"message": {"content": v}}`, gives the string `v` |
| `Ollama.Create` | Sources/WWSimpleAI_Ollama/WWSimpleAI_Ollama.swift:178-209 | `create`; stated by `StatusResultIsParse` and `StatusDefaultsJoinWithComma` |
| `Ollama.Delete` | Sources/WWSimpleAI_Ollama/WWSimpleAI_Ollama.swift:215-238 | `delete`; stated by `DeleteCopyOutcome` |
| `Ollama.Copy` | Sources/WWSimpleAI_Ollama/WWSimpleAI_Ollama.swift:245-269 | `copy`; stated by `DeleteCopyOutcome` |
| `Ollama.Download` | Sources/WWSimpleAI_Ollama/WWSimpleAI_Ollama.swift:280-309 | `download`; stated by `StatusResultIsParse`, `TimeoutForwarding` and `StatusDefaultsJoinWithComma` |
| `Ollama.Version` | Sources/WWSimpleAI_Ollama/WWSimpleAI_Ollama.swift:321-330 | `version`: a GET of the version api with no body, parsed on the top-level `version` field; stated by `VersionAnswers` |
| `Ollama.VersionAnswers` | Sources/WWSimpleAI_Ollama/WWSimpleAI_Ollama.swift:321-330 | a 200 answer of one line `{"version": v}` gives the string `v` |
| `Ollama.Models` | Sources/WWSimpleAI_Ollama/WWSimpleAI_Ollama.swift:334-364 | `models`; stated by `ModelListGuards` |
| `Ollama.Document` | Sources/WWSimpleAI_Ollama/WWSimpleAI_Ollama.swift:371-405 | `document`; stated by `DocumentGuards` |
| `Ollama.ProcessStatus` | Sources/WWSimpleAI_Ollama/WWSimpleAI_Ollama.swift:409-439 | `processStatus`; stated by `ModelListGuards` |
| `Ollama.StatusDefaultsJoinWithComma` | Sources/WWSimpleAI_Ollama/WWSimpleAI_Ollama.swift:178-209 | with their default arguments (`separator: ","`, the string shape, no streaming, a 600 s download timeout), `create` and `download` join two status lines with a comma |
| `Ollama.GenerateDefaultsConcatenate` | Sources/WWSimpleAI_Ollama/WWSimpleAI_Ollama.swift:77-101 | with its default arguments (`separator: ""`, the string shape, 60 s, no streaming, no optional values), `generate` writes `null` for the optional fields and concatenates the pieces with nothing between them |
| `Ollama.TalkDropsRequestedShape` | Sources/WWSimpleAI_Ollama/WWSimpleAI_Ollama.swift:116-119 | as written, talk asked for bytes never returns bytes |
| `Ollama.TalkWithTypeHonorsShape` | Sources/WWSimpleAI_Ollama/WWSimpleAI_Ollama.swift:116-119 | with the type passed on, talk returns the bytes or lines asked for, and the string shape answers as before |
| `Ollama.GenerateWithTimeoutForwards` | Sources/WWSimpleAI_Ollama/WWSimpleAI_Ollama.swift:77-95 | with the timeout passed on, the request carries it and the same body, and the answer is unchanged when the transport answers the same |
| `Example.StatusStep` | Example/Example/ViewController/ViewController.swift:176-194 | the flag is set exactly after a failure or `open`; the text is cleared exactly after a failure or `closed` |
| `Example.RawStep` | Example/Example/ViewController/ViewController.swift:200-218 | a non-200 frame replaces the text by the body text or the status number; a 200 frame whose object has a string `response` appends exactly that string, and any other 200 frame changes nothing; the flag is untouched |
| `Example.OpenDismissesAtMostOnce` | Example/Example/ViewController/ViewController.swift:190 | any run of `open` dismisses the HUD at most once, not at all if already dismissed, and leaves the flag set |
| `Example.ConnectingRearms` | Example/Example/ViewController/ViewController.swift:189-190 | `connecting` then `open` dismisses exactly once |
| `Example.StatusKeepsOrClearsText` | Example/Example/ViewController/ViewController.swift:176-194 | status callbacks keep the text or clear it, never anything else |
| `Example.FramesAccumulate` | Example/Example/ViewController/ViewController.swift:211-217 | 200 frames carrying `response` pieces append the pieces in order to the text |
| `Example.FramePiece` | Example/Example/ViewController/ViewController.swift:211-214 | the piece a frame appends: present exactly when the frame has status 200 and a string `response`, and then that string |
| `Example.StreamAccumulates` | Example/Example/ViewController/ViewController.swift:200-218 | over any stream of 200 frames, with or without pieces, the text grows by exactly the carried pieces in order and the flag stays |
| `Example.ViewController.constructor` | Example/Example/ViewController/ViewController.swift:21-22 | the flag starts false, the text empty |
| `Example.ViewController.SseStatusAction` | Example/Example/ViewController/ViewController.swift:176-194 | the state becomes the status step; the HUD is dismissed exactly when the step says so; a failure is shown; the count of `open` dismissals is reset by `connecting` and `closed` and grows by one when `open` dismisses, so at most one per re-arm is kept as an invariant |
| `Example.ViewController.SseRawString` | Example/Example/ViewController/ViewController.swift:200-218 | the state becomes the raw step, the text view shows the text afterwards, and `Valid` is kept |
| `Example.ViewController.ServerSentEventsRawData` | Example/Example/ViewController/ViewController.swift:48-54 | a failed frame is shown and changes nothing else; a received one is handled by the raw step; `Valid` is kept |

## Left out

- The transport (`WWNetworking.request`), async execution and real time-outs. They are a parameter returning a response or a failure; the timeout is only recorded in the request.
- The foreign codecs: `String(data:encoding:)`, `JSONSerialization`, `JSONEncoder` and UIImage JPEG/base64 encoding. They are arbitrary total functions in `Codec`. Nothing is assumed about them, so there are no text-encoding rules and no Swift rule that `\r\n` is one Character.
- A single text decoder stands for every `String.Encoding`; the `encoding` arguments are not modelled.
- JSON numbers are integers; floating-point values are not modelled. `jpegCompressionQuality` is a `real` that is handed to the foreign image encoder inside `Jpeg(quality)`; what the encoder does with it is not modelled.
- Codable decoding of `ModelInformation`, `RunningModelInformation` and `ModelDocumentInformation`. They are a caller-supplied decoding function, so only the guard order of `models`, `processStatus` and `document` is modelled.
- URL paths of every api except generate and chat, which Constant.swift does not show; `UrlString` gives no URL for them. The request carries the api, and `UrlString` turns it into the URL under the configured base URL.
- `configure` and the static settings: a plain assignment. `Config` is passed explicitly, with `DefaultConfig` holding the initial values.
- `UTTypeReference._find` and the `Mirror` reflection behind `extensionName`. The extension name is the case name.
- The demo's IBActions, `liveGenerate`, `displayHUD`, the HUD and text-view rendering and the auto-scroll. The HUD dismissals and the displayed text are ghost fields of `ViewController`.
- Swift default arguments. Every operation takes all its arguments; the source defaults are the constants `DefaultShape`, `DefaultTimeout` (60), `DefaultDownloadTimeout` (600), `DefaultSeparator` (`""`), `DefaultStatusSeparator` (`","` for `create` and `download`), `DefaultUseStream` (false), `DefaultIsLoad` (true) and `DefaultIsVerbose` (false) in `Ollama`, which a caller passes in place of the omitted argument. The `encoding` default (`.utf8`) is covered by the single text decoder.
- randomMenu.py (a Flask service), Package.swift and the example's UITextView extension are outside the library core.

## Findings

| source | as written | input that shows it | evidently intended | confidence | as-written member | corrected member |
|---|---|---|---|---|---|---|
| Sources/WWSimpleAI_Ollama/WWSimpleAI_Ollama.swift:116-119 | `talk` takes `type` but does not pass it to `chat`, which then uses `.string()` | `talk(content: "hi", type: .data())` with a 200 answer returns a string, never `.data` | `chat` receives the caller's `type` | medium, not executed | `Ollama.TalkDropsRequestedShape` | `Ollama.TalkWithTypeHonorsShape` |
| Sources/WWSimpleAI_Ollama/WWSimpleAI_Ollama.swift:77-95 | `generate` takes `timeout` (documented as the request time-out) but calls the transport without it | `generate(prompt: "hi", timeout: 5)` sends a request with the transport's default time-out | the request carries the caller's time-out, as in `chat` and `download` | medium, not executed | `Ollama.TimeoutForwarding` | `Ollama.GenerateWithTimeoutForwards` |

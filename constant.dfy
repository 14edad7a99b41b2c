/** The lookup tables of Constant.swift: MIME types and file extensions, image
    magic numbers, endpoint paths, role names, the request-option payloads and
    the error messages. */
module Constant {
  import opened Wrappers

  newtype byte = x: int | 0 <= x < 256

  type Bytes = seq<byte>

  /** Web file types; `Jpeg` carries the compression quality used when encoding. */
  datatype MimeType =
    | Jpeg(compressionQuality: real)
    | Png | Icon | Bin | Gif | Txt | Csv | Doc | Docx | Xls | Xlsx | Pdf
    | Webp | Bmp | Heic | Avif | Svg | Html | Xml | Json
  {
    /** The Swift case name, which the library reads by reflection. */
    function ExtensionName(): string
    {
      match this
      case Jpeg(_) => "jpeg"
      case Png => "png"
      case Icon => "icon"
      case Bin => "bin"
      case Gif => "gif"
      case Txt => "txt"
      case Csv => "csv"
      case Doc => "doc"
      case Docx => "docx"
      case Xls => "xls"
      case Xlsx => "xlsx"
      case Pdf => "pdf"
      case Webp => "webp"
      case Bmp => "bmp"
      case Heic => "heic"
      case Avif => "avif"
      case Svg => "svg"
      case Html => "html"
      case Xml => "xml"
      case Json => "json"
    }

    /** The file extension: a dot followed by the case name. */
    function FileExtensionMaker(): (r: string)
      ensures |r| > 1 && r[0] == '.' && '.' !in r[1..]
    {
      "." + ExtensionName()
    }

    function MimeTypeMaker(): string
    {
      match this
      case Bin => "application/octet-stream"
      case Pdf => "application/pdf"
      case Doc => "application/msword"
      case Docx => "application/vnd.openxmlformats-officedocument.wordprocessingml.document"
      case Xls => "application/vnd.ms-excel"
      case Xlsx => "application/vnd.openxmlformats-officedocument.spreadsheetml.sheet"
      case Txt => "text/plain"
      case Csv => "text/csv"
      case Jpeg(_) => "image/jpeg"
      case Png => "image/png"
      case Icon => "image/x-icon"
      case Gif => "image/gif"
      case Webp => "image/webp"
      case Bmp => "image/bmp"
      case Heic => "image/heic"
      case Avif => "image/avif"
      case Svg => "image/svg+xml"
      case Html => "text/html"
      case Xml => "text/xml"
      case Json => "application/json"
    }

    /** Two values name the same file type when they differ at most in JPEG quality. */
    predicate SameKind(other: MimeType)
    {
      if Jpeg? then other.Jpeg? else this == other
    }
  }

  /** The JPEG quality changes neither the MIME type nor the file extension. */
  lemma JpegQualityIgnored(q1: real, q2: real)
    ensures Jpeg(q1).MimeTypeMaker() == Jpeg(q2).MimeTypeMaker() == "image/jpeg"
    ensures Jpeg(q1).FileExtensionMaker() == Jpeg(q2).FileExtensionMaker() == ".jpeg"
  {
  }

  /** The file-extension table is one-to-one on file kinds. */
  lemma FileExtensionInjective(m1: MimeType, m2: MimeType)
    requires m1.FileExtensionMaker() == m2.FileExtensionMaker()
    ensures m1.SameKind(m2)
  {
    assert m1.ExtensionName() == m1.FileExtensionMaker()[1..];
    assert m2.ExtensionName() == m2.FileExtensionMaker()[1..];
  }

  /** The leading bytes that identify an image file. */
  datatype ImageFormat = IconImage | PngImage | JpegImage | GifImage | WebpImage
                       | BmpImage | HeicImage | AvifImage | SvgImage | PdfImage
  {
    function HeaderMaker(): Bytes
    {
      match this
      case IconImage => [0x00, 0x00, 0x01, 0x00]
      case PngImage => [0x89, 0x50, 0x4E, 0x47, 0x0D, 0x0A, 0x1A, 0x0A]
      case JpegImage => [0xFF, 0xD8, 0xFF]
      case GifImage => [0x47, 0x49, 0x46]
      case WebpImage => [0x52, 0x49, 0x46, 0x46, 0x00, 0x00, 0x00, 0x00, 0x57, 0x45, 0x42, 0x50]
      case BmpImage => [0x42, 0x4D]
      case HeicImage => [0x00, 0x00, 0x00, 0x00, 0x66, 0x74, 0x79, 0x70, 0x68, 0x65, 0x69, 0x63]
      case AvifImage => [0x00, 0x00, 0x00, 0x00, 0x66, 0x74, 0x79, 0x70, 0x61, 0x76, 0x69, 0x66]
      case PdfImage => [0x25, 0x50, 0x44, 0x46]
      case SvgImage => []
    }
  }

  /** Header lengths: png 8, jpeg 3, webp/heic/avif 12, svg none; HEIC and AVIF
      share the eight-byte `ftyp` box prefix and differ after it. */
  lemma HeaderShapes()
    ensures |PngImage.HeaderMaker()| == 8 && |JpegImage.HeaderMaker()| == 3
    ensures |WebpImage.HeaderMaker()| == |HeicImage.HeaderMaker()| == |AvifImage.HeaderMaker()| == 12
    ensures SvgImage.HeaderMaker() == []
    ensures HeicImage.HeaderMaker()[..8] == AvifImage.HeaderMaker()[..8]
    ensures HeicImage.HeaderMaker()[8..] != AvifImage.HeaderMaker()[8..]
  {
  }

  /** No non-empty header is a prefix of another format's header, so a file's
      leading bytes match at most one format other than SVG. */
  lemma HeadersPrefixFree(f: ImageFormat, g: ImageFormat)
    requires f != g && f != SvgImage && g != SvgImage
    ensures var hf, hg := f.HeaderMaker(), g.HeaderMaker();
      !(|hf| <= |hg| && hg[..|hf|] == hf)
  {
    var hf, hg := f.HeaderMaker(), g.HeaderMaker();
    // Any two of the headers already differ at byte 0, 1, 2 or 8.
    assert || hf[0] != hg[0] || hf[1] != hg[1]
           || (|hf| > 2 && |hg| > 2 && hf[2] != hg[2])
           || (|hf| > 8 && |hg| > 8 && hf[8] != hg[8]);
  }

  /** The API endpoints the library switches over. */
  datatype Api = Generate | Chat | Create | Model | Models | Version | Delete | Ps | Copy | Download
  {
    /** The URL path below the base URL; only the generate and chat paths are
        given in Constant.swift, the others are left open. */
    function ShownPath(): Option<string>
    {
      match this
      case Generate => Some("api/generate")
      case Chat => Some("api/chat")
      case _ => None
    }

    /** `baseURL + "/" + path`, with no trailing-slash normalisation. */
    function Url(baseURL: string): (r: Option<string>)
      ensures r.Some? <==> this in {Generate, Chat}
      ensures r.Some? ==> |r.value| > |baseURL| && r.value[..|baseURL|] == baseURL
                          && r.value[|baseURL|..] == "/" + ShownPath().value
    {
      match ShownPath()
      case Some(path) => Some(baseURL + "/" + path)
      case None => None
    }
  }

  /** A base URL that already ends in a slash yields a doubled slash. */
  lemma UrlKeepsTrailingSlash(host: string)
    ensures Generate.Url(host + "/") == Some(host + "//api/generate")
    ensures Chat.Url(host + "/") == Some(host + "//api/chat")
  {
    assert host + "/" + "/" + "api/generate" == host + "//api/generate";
    assert host + "/" + "/" + "api/chat" == host + "//api/chat";
  }

  /** Chat roles. */
  datatype Role = User | Assistant | Custom(name: string)
  {
    function Name(): (r: string)
      ensures Custom? ==> r == name
    {
      match this
      case User => "user"
      case Assistant => "assistant"
      case Custom(n) => n
    }
  }

  /** The role name forgets whether a role was built-in or custom. */
  lemma RoleNameNotInjective()
    ensures Custom("user").Name() == User.Name() && Custom("user") != User
    ensures Custom("assistant").Name() == Assistant.Name() && Custom("assistant") != Assistant
  {
  }

  /** Every text is some role's name: the custom role of that text, and also
      the built-in role when the text is `user` or `assistant`; no other role
      has it. */
  lemma RoleNameSurjective(n: string)
    ensures exists r: Role :: r.Name() == n
    ensures forall r: Role :: r.Name() == n <==>
      r == Custom(n) || (r == User && n == "user") || (r == Assistant && n == "assistant")
  {
    assert Custom(n).Name() == n;
  }

  /** The requested answer format: a quoted word or a raw JSON schema. */
  datatype ResponseFormat = StringFormat(text: string) | JsonFormat(json: string)
  {
    function Value(): (r: string)
      ensures StringFormat? ==> |r| == |text| + 2 && r[0] == '"' && r[|r| - 1] == '"' && r[1..|r| - 1] == text
      ensures JsonFormat? ==> r == json
    {
      match this
      case StringFormat(s) => "\"" + s + "\""
      case JsonFormat(j) => j
    }
  }

  /** Extra model options, passed as raw JSON text. */
  datatype ResponseOptions = JsonOptions(json: string)
  {
    function Value(): (r: string)
      ensures r == json
    {
      json
    }
  }

  /** Tool declarations, passed as raw JSON text. */
  datatype ResponseTools = JsonTools(json: string)
  {
    function Value(): (r: string)
      ensures r == json
    {
      json
    }
  }

  /** The string format is not escaped: a quote inside it closes the JSON string early. */
  lemma StringFormatUnescaped()
    ensures StringFormat("a\"b").Value() == "\"a\"b\""
  {
  }

  /** The error enum as declared in Constant.swift, with its messages. */
  datatype CustomError = JsonString | System
  {
    function Message(): (r: string)
      ensures r != ""
    {
      match this
      case JsonString => "JSON format encoding error."
      case System => "System error."
    }
  }

  /** The two messages are fixed and tell the errors apart. */
  lemma CustomErrorMessages()
    ensures JsonString.Message() == "JSON format encoding error."
    ensures System.Message() == "System error."
    ensures JsonString.Message() != System.Message()
  {
  }
}

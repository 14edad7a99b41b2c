/** Extension.swift, together with the pieces of Swift's standard library it
    rests on: `compactMap`, `split(separator:)`, `joined(separator:)`, the
    decimal description of an `Int`, `Bool._int` and `Data._ndjson`. */
module Extension {
  import opened Wrappers
  import opened JsonValue
  import opened Constant

  /** A picture handed to the library; only the foreign encoder looks inside. */
  datatype Image = Image(pixels: Bytes)

  /** The foreign codecs the library calls, one function each:
      - decodeText: `String(data:encoding:)` for the caller's encoding;
      - parseText: a line converted back to UTF-8 data and read by
        `JSONSerialization` with fragments allowed;
      - parseData: `Data._jsonObject()`, the same reader on raw bytes;
      - encodeJson: `Encodable._jsonString(using:)` (`JSONEncoder`, then text);
      - encodeImage: `UIImage._base64String(mimeType:)`. */
  datatype Codec = Codec(
    decodeText: Bytes -> Option<string>,
    parseText: string -> Option<Json>,
    parseData: Bytes -> Option<Json>,
    encodeJson: Json -> Option<string>,
    encodeImage: (Image, MimeType) -> Option<string>)

  // ---------------------------------------------------------------------------
  // compactMap

  /** Swift's `compactMap`: the `Some` results of `f`, in input order. */
  function CompactMap<A, B>(s: seq<A>, f: A -> Option<B>): (r: seq<B>)
    ensures |r| <= |s|
  {
    if s == [] then []
    else if f(s[0]).Some? then [f(s[0]).value] + CompactMap(s[1..], f)
    else CompactMap(s[1..], f)
  }

  /** How many elements `f` rejects. */
  function Rejected<A, B>(s: seq<A>, f: A -> Option<B>): (n: nat)
  {
    if s == [] then 0 else (if f(s[0]).None? then 1 else 0) + Rejected(s[1..], f)
  }

  lemma {:induction false} CompactMapAppend<A, B>(a: seq<A>, b: seq<A>, f: A -> Option<B>)
    ensures CompactMap(a + b, f) == CompactMap(a, f) + CompactMap(b, f)
  {
    if a == [] {
      assert a + b == b;
    } else {
      assert (a + b)[1..] == a[1..] + b;
      CompactMapAppend(a[1..], b, f);
    }
  }

  /** N inputs of which M are rejected give exactly N - M outputs. */
  lemma {:induction false} CompactMapLength<A, B>(s: seq<A>, f: A -> Option<B>)
    ensures |CompactMap(s, f)| == |s| - Rejected(s, f)
  {
    if s != [] {
      CompactMapLength(s[1..], f);
    }
  }

  /** Order is kept: an accepted element lands right after the outputs of the
      elements before it. */
  lemma CompactMapAt<A, B>(s: seq<A>, f: A -> Option<B>, i: nat)
    requires i < |s| && f(s[i]).Some?
    ensures |CompactMap(s[..i], f)| < |CompactMap(s, f)|
    ensures CompactMap(s, f)[|CompactMap(s[..i], f)|] == f(s[i]).value
  {
    assert s == s[..i] + [s[i]] + s[i + 1..];
    CompactMapAppend(s[..i] + [s[i]], s[i + 1..], f);
    CompactMapAppend(s[..i], [s[i]], f);
  }

  /** Every output is produced by some input. */
  lemma {:induction false} CompactMapFrom<A, B>(s: seq<A>, f: A -> Option<B>, k: nat)
    requires k < |CompactMap(s, f)|
    ensures exists i :: 0 <= i < |s| && f(s[i]) == Some(CompactMap(s, f)[k])
  {
    if f(s[0]).Some? {
      if k > 0 {
        CompactMapFrom(s[1..], f, k - 1);
        var i :| 0 <= i < |s[1..]| && f(s[1..][i]) == Some(CompactMap(s[1..], f)[k - 1]);
        assert f(s[i + 1]) == Some(CompactMap(s, f)[k]);
      } else {
        assert f(s[0]) == Some(CompactMap(s, f)[k]);
      }
    } else {
      CompactMapFrom(s[1..], f, k);
      var i :| 0 <= i < |s[1..]| && f(s[1..][i]) == Some(CompactMap(s[1..], f)[k]);
      assert f(s[i + 1]) == Some(CompactMap(s, f)[k]);
    }
  }

  // ---------------------------------------------------------------------------
  // joined(separator:) and split(separator:)

  /** Swift's `joined(separator:)`. */
  function Join(parts: seq<string>, separator: string): string
  {
    if |parts| == 0 then ""
    else if |parts| == 1 then parts[0]
    else parts[0] + separator + Join(parts[1..], separator)
  }

  /** Joining two non-empty runs of parts puts one separator between them. */
  lemma {:induction false} JoinAppend(a: seq<string>, b: seq<string>, separator: string)
    requires a != [] && b != []
    ensures Join(a + b, separator) == Join(a, separator) + separator + Join(b, separator)
  {
    if |a| == 1 {
      assert (a + b)[1..] == b;
    } else {
      assert (a + b)[1..] == a[1..] + b;
      JoinAppend(a[1..], b, separator);
    }
  }

  /** Where one part lands in a join: after the earlier parts and a separator,
      before a separator and the later parts. */
  lemma JoinAround(before: seq<string>, part: string, after: seq<string>, separator: string)
    ensures Join(before + [part] + after, separator)
         == (if before == [] then "" else Join(before, separator) + separator) + part +
            (if after == [] then "" else separator + Join(after, separator))
  {
    if before == [] && after == [] {
      assert before + [part] + after == [part];
    } else if before == [] {
      assert before + [part] + after == [part] + after;
      JoinAppend([part], after, separator);
    } else if after == [] {
      assert before + [part] + after == before + [part];
      JoinAppend(before, [part], separator);
    } else {
      assert before + [part] + after == before + ([part] + after);
      JoinAppend(before, [part] + after, separator);
      JoinAppend([part], after, separator);
    }
  }

  /** Splitting at every `sep`, empty pieces included. */
  function SplitAll(s: string, sep: char): (r: seq<string>)
    ensures |r| >= 1
  {
    if s == [] then [[]]
    else if s[0] == sep then [[]] + SplitAll(s[1..], sep)
    else var rest := SplitAll(s[1..], sep); [[s[0]] + rest[0]] + rest[1..]
  }

  function NonEmptyPiece(p: string): Option<string>
  {
    if p == [] then None else Some(p)
  }

  /** Swift's `split(separator:)`, which leaves out empty pieces. */
  function Split(s: string, sep: char): seq<string>
  {
    CompactMap(SplitAll(s, sep), NonEmptyPiece)
  }

  /** The pieces put back together with the separator give the input again. */
  lemma {:induction false} SplitAllJoin(s: string, sep: char)
    ensures Join(SplitAll(s, sep), [sep]) == s
  {
    if s == [] {
    } else if s[0] == sep {
      SplitAllJoin(s[1..], sep);
      assert s == [sep] + s[1..];
    } else {
      var rest := SplitAll(s[1..], sep);
      SplitAllJoin(s[1..], sep);
      if |rest| == 1 {
        assert [s[0]] + rest[0] == s;
      } else {
        assert ([[s[0]] + rest[0]] + rest[1..])[1..] == rest[1..];
        assert Join(rest, [sep]) == rest[0] + [sep] + Join(rest[1..], [sep]);
        assert [s[0]] + rest[0] + [sep] + Join(rest[1..], [sep]) == [s[0]] + Join(rest, [sep]);
      }
    }
  }

  /** No piece contains the separator. */
  lemma {:induction false} SplitAllPieces(s: string, sep: char)
    ensures forall p :: p in SplitAll(s, sep) ==> sep !in p
  {
    if s != [] {
      SplitAllPieces(s[1..], sep);
    }
  }

  /** `split` yields non-empty pieces free of the separator, and yields none
      exactly when the text is nothing but separators. */
  lemma {:induction false} SplitPieces(s: string, sep: char)
    ensures forall p :: p in Split(s, sep) ==> p != [] && sep !in p
    ensures Split(s, sep) == [] <==> forall i :: 0 <= i < |s| ==> s[i] == sep
  {
    if s != [] {
      SplitPieces(s[1..], sep);
      if s[0] == sep {
        assert Split(s, sep) == Split(s[1..], sep);
        assert forall i :: 1 <= i < |s| ==> s[i] == s[1..][i - 1];
      } else {
        assert Split(s, sep) != [];
      }
    }
    SplitAllPieces(s, sep);
    forall p | p in Split(s, sep) ensures p != [] && sep !in p {
      var k :| 0 <= k < |Split(s, sep)| && Split(s, sep)[k] == p;
      CompactMapFrom(SplitAll(s, sep), NonEmptyPiece, k);
      var i :| 0 <= i < |SplitAll(s, sep)| && NonEmptyPiece(SplitAll(s, sep)[i]) == Some(p);
      assert SplitAll(s, sep)[i] in SplitAll(s, sep);
    }
  }

  /** Text without the separator is one piece, or none when empty. */
  lemma {:induction false} SplitAllWithout(s: string, sep: char)
    requires sep !in s
    ensures SplitAll(s, sep) == [s]
  {
    if s != [] {
      assert s[0] in s;
      assert sep !in s[1..] by { assert forall c :: c in s[1..] ==> c in s; }
      SplitAllWithout(s[1..], sep);
      assert [s[0]] + s[1..] == s;
    }
  }

  /** A separator right after a separator-free prefix ends the first piece. */
  lemma {:induction false} SplitAllAt(a: string, b: string, sep: char)
    requires sep !in a
    ensures SplitAll(a + [sep] + b, sep) == [a] + SplitAll(b, sep)
  {
    if a == [] {
      assert a + [sep] + b == [sep] + b;
    } else {
      assert (a + [sep] + b)[1..] == a[1..] + [sep] + b;
      assert sep !in a[1..] by { assert forall c :: c in a[1..] ==> c in a; }
      SplitAllAt(a[1..], b, sep);
      assert [a[0]] + a[1..] == a;
    }
  }

  lemma SplitAt(a: string, b: string, sep: char)
    requires sep !in a && a != []
    ensures Split(a + [sep] + b, sep) == [a] + Split(b, sep)
  {
    SplitAllAt(a, b, sep);
    CompactMapAppend([a], SplitAll(b, sep), NonEmptyPiece);
  }

  lemma SplitWithout(s: string, sep: char)
    requires sep !in s
    ensures Split(s, sep) == if s == [] then [] else [s]
  {
    SplitAllWithout(s, sep);
  }

  // ---------------------------------------------------------------------------
  // Int description and Bool._int

  function DigitChar(d: nat): char
    requires d < 10
  {
    "0123456789"[d]
  }

  function Digits(n: nat): (r: string)
    ensures |r| >= 1
  {
    if n < 10 then [DigitChar(n)] else Digits(n / 10) + [DigitChar(n % 10)]
  }

  /** The decimal text of an `Int`, as string interpolation writes it. */
  function DecimalString(n: int): string
  {
    if n < 0 then "-" + Digits(-n) else Digits(n)
  }

  function DigitValue(c: char): int
  {
    if '0' <= c <= '9' then c as int - '0' as int else 0
  }

  function ParseDigits(s: string): int
  {
    if s == [] then 0 else 10 * ParseDigits(s[..|s| - 1]) + DigitValue(s[|s| - 1])
  }

  /** Reading decimal text back, the inverse of `DecimalString`. */
  function ParseDecimal(s: string): int
  {
    if |s| > 0 && s[0] == '-' then -ParseDigits(s[1..]) else ParseDigits(s)
  }

  lemma {:induction false} DigitsRoundTrip(n: nat)
    ensures ParseDigits(Digits(n)) == n
    ensures Digits(n)[0] != '-'
  {
    if n >= 10 {
      DigitsRoundTrip(n / 10);
      var s := Digits(n / 10) + [DigitChar(n % 10)];
      assert s[..|s| - 1] == Digits(n / 10);
    }
  }

  lemma DecimalRoundTrip(n: int)
    ensures ParseDecimal(DecimalString(n)) == n
  {
    var s := DecimalString(n);
    if n < 0 {
      DigitsRoundTrip(-n);
      assert s[0] == '-' && s[1..] == Digits(-n);
      assert ParseDecimal(s) == -ParseDigits(Digits(-n));
    } else {
      DigitsRoundTrip(n);
      assert s == Digits(n) && s[0] != '-';
      assert ParseDecimal(s) == ParseDigits(Digits(n));
    }
  }

  /** `Bool._int()`. */
  function BoolToInt(b: bool): (r: int)
    ensures 0 <= r <= 1
    ensures r == 1 <==> b
  {
    if b then 1 else 0
  }

  lemma BoolToIntText()
    ensures DecimalString(BoolToInt(true)) == "1"
    ensures DecimalString(BoolToInt(false)) == "0"
  {
  }

  // ---------------------------------------------------------------------------
  // Collection._base64String and Data._ndjson

  /** `[UIImage]._base64String(mimeType:)`: the encodings that succeed, in order. */
  function Base64Strings(images: seq<Image>, mimeType: MimeType, codec: Codec): seq<string>
  {
    CompactMap(images, (image: Image) => codec.encodeImage(image, mimeType))
  }

  /** Dropping failed images never grows the list and keeps the successful ones in order. */
  lemma Base64StringsShape(images: seq<Image>, mimeType: MimeType, codec: Codec)
    ensures |Base64Strings(images, mimeType, codec)| <= |images|
    ensures (forall i :: 0 <= i < |images| ==> codec.encodeImage(images[i], mimeType).Some?) ==>
      |Base64Strings(images, mimeType, codec)| == |images|
    ensures forall i :: 0 <= i < |images| && codec.encodeImage(images[i], mimeType).Some? ==>
      var k := |Base64Strings(images[..i], mimeType, codec)|;
      k < |Base64Strings(images, mimeType, codec)| &&
      Base64Strings(images, mimeType, codec)[k] == codec.encodeImage(images[i], mimeType).value
  {
    var f := (image: Image) => codec.encodeImage(image, mimeType);
    CompactMapLength(images, f);
    if forall i :: 0 <= i < |images| ==> f(images[i]).Some? {
      NoneRejected(images, f);
    }
    forall i | 0 <= i < |images| && f(images[i]).Some?
      ensures var k := |CompactMap(images[..i], f)|;
        k < |CompactMap(images, f)| && CompactMap(images, f)[k] == f(images[i]).value
    {
      CompactMapAt(images, f, i);
    }
  }

  lemma {:induction false} NoneRejected<A, B>(s: seq<A>, f: A -> Option<B>)
    requires forall i :: 0 <= i < |s| ==> f(s[i]).Some?
    ensures Rejected(s, f) == 0
  {
    if s != [] {
      assert f(s[0]).Some?;
      NoneRejected(s[1..], f);
    }
  }

  /** What `Data._ndjson(using:)` returns: nothing when the bytes are not text in
      the encoding, otherwise the values of the non-empty lines that parse. */
  function DecodeNdjson(data: Bytes, codec: Codec): Option<seq<Json>>
  {
    match codec.decodeText(data)
    case None => None
    case Some(text) => Some(CompactMap(Split(text, '\n'), codec.parseText))
  }

  /** `Data._ndjson(using:)`: grows the array line by line. */
  method Ndjson(data: Bytes, codec: Codec) returns (r: Option<seq<Json>>)
    ensures r == DecodeNdjson(data, codec)
  {
    var jsonString := codec.decodeText(data);
    if jsonString.None? {
      return None;
    }
    var lines := Split(jsonString.value, '\n');
    var jsonArray: seq<Json> := [];
    for i := 0 to |lines|
      invariant jsonArray == CompactMap(lines[..i], codec.parseText)
    {
      var json := codec.parseText(lines[i]);
      CompactMapAppend(lines[..i], [lines[i]], codec.parseText);
      assert lines[..i + 1] == lines[..i] + [lines[i]];
      if json.Some? {
        jsonArray := jsonArray + [json.value];
      }
    }
    assert lines[..|lines|] == lines;
    return Some(jsonArray);
  }

  /** Text of one non-empty line decodes to that line's value alone. */
  lemma OneLineNdjson(data: Bytes, codec: Codec, line: string, json: Json)
    requires line != [] && '\n' !in line
    requires codec.decodeText(data) == Some(line) && codec.parseText(line) == Some(json)
    ensures DecodeNdjson(data, codec) == Some([json])
  {
    SplitWithout(line, '\n');
    assert [line][1..] == [];
    assert CompactMap([line], codec.parseText) == [json];
  }

  /** `_ndjson` fails exactly when the text decoding fails; empty text gives no lines. */
  lemma NdjsonFailsOnlyOnText(data: Bytes, codec: Codec)
    ensures DecodeNdjson(data, codec).None? <==> codec.decodeText(data).None?
    ensures codec.decodeText(data) == Some("") ==> DecodeNdjson(data, codec) == Some([])
  {
  }

  /** With L the non-empty lines of the text, of which M fail to parse, `_ndjson`
      returns L - M values, in line order, each the parse of its own line. */
  lemma NdjsonLines(data: Bytes, codec: Codec, text: string)
    requires codec.decodeText(data) == Some(text)
    ensures var lines := Split(text, '\n');
      var values := DecodeNdjson(data, codec).value;
      && |values| == |lines| - Rejected(lines, codec.parseText)
      && (forall i :: 0 <= i < |lines| && codec.parseText(lines[i]).Some? ==>
            var k := |CompactMap(lines[..i], codec.parseText)|;
            k < |values| && values[k] == codec.parseText(lines[i]).value)
      && (forall k :: 0 <= k < |values| ==>
            exists i :: 0 <= i < |lines| && codec.parseText(lines[i]) == Some(values[k]))
  {
    var lines := Split(text, '\n');
    CompactMapLength(lines, codec.parseText);
    forall i | 0 <= i < |lines| && codec.parseText(lines[i]).Some?
      ensures var k := |CompactMap(lines[..i], codec.parseText)|;
        k < |CompactMap(lines, codec.parseText)| &&
        CompactMap(lines, codec.parseText)[k] == codec.parseText(lines[i]).value
    {
      CompactMapAt(lines, codec.parseText, i);
    }
    forall k | 0 <= k < |CompactMap(lines, codec.parseText)|
      ensures exists i :: 0 <= i < |lines| && codec.parseText(lines[i]) == Some(CompactMap(lines, codec.parseText)[k])
    {
      CompactMapFrom(lines, codec.parseText, k);
    }
  }
}

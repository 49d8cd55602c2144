/** The decode classifier (`Unmarshal`): checks the Content-Type, caps the
    body, decodes one JSON value (RFC 8259) with unknown fields refused, and
    sorts every failure into a fixed (status, message) outcome.

    The JSON decoder itself is not modelled: what `Decode` returned is given
    as a `DecodeError` kind (or success with the decoded value), and what
    `More` answered afterwards as the flag `more`. */
module Decode {
  import opened Wrappers
  import opened Strings
  import Translate

  const MaxBodyBytes: nat := 64000
  const JsonMediaType := "application/json"
  const UnknownFieldPrefix := "json: unknown field"
  const TooLargeText := "http: request body too large"
  const SyntaxMessagePrefix := "malformed json at position "
  const TypeMessagePrefix := "invalid value "
  const TypeMessageInfix := " at position "
  const ContentTypeMessage := "content-type is not application/json"

  /** The error `Decode` can return, by the test the classifier applies. */
  datatype DecodeError =
    | Syntax(offset: nat)                  // a *json.SyntaxError
    | UnexpectedEOF                        // io.ErrUnexpectedEOF: the value is cut short
    | TypeErr(field: string, offset: nat)  // a *json.UnmarshalTypeError
    | UnknownField(quoted: string)         // a key the target lacks, already %q-quoted
    | EOF                                  // io.EOF: no value at all
    | TooLarge                             // the body went past the MaxBytesReader cap
    | Other(text: string)                  // anything else, by its Error() text

  /** `err.Error()` for the kinds whose text the classifier inspects. */
  function Text(e: DecodeError): string
    requires e.UnknownField? || e.EOF? || e.TooLarge? || e.Other?
  {
    match e
    case UnknownField(quoted) => UnknownFieldPrefix + " " + quoted
    case EOF => "EOF"
    case TooLarge => TooLargeText
    case Other(text) => text
  }

  /** What the decoder produced: the decoded value or an error, and whether
      input remains after the first value. */
  datatype Decoding<T> = Decoding(result: Result<T, DecodeError>, more: bool)

  /** The outcome of `Unmarshal`: an HTTP status and, unless the status is
      200, the error text. */
  datatype Unmarshalled = Unmarshalled(status: int, err: Option<string>)

  datatype Failure = Failure(status: int, message: string)

  /** The Content-Type test: at least 16 bytes whose first 16 are
      "application/json"; anything may follow. */
  predicate IsJsonContentType(contentType: string) {
    |contentType| >= 16 && contentType[..16] == JsonMediaType
  }

  /** The classification of a decode error, first matching test wins:
      syntax, unexpected EOF, type mismatch, unknown-field text, EOF,
      body-too-large text, anything else. */
  function DecodeFailure(e: DecodeError): (f: Failure)
    ensures f.status in {400, 413, 500}
    ensures f.status == 413 <==> e == TooLarge || e == Other(TooLargeText)
    ensures f.status == 500 <==> e.Other? && !HasPrefix(e.text, UnknownFieldPrefix) && e.text != TooLargeText
    ensures f.status == 500 ==> f.message == "failed to decode json: " + e.text
    ensures e.Syntax? ==> f.status == 400 && HasPrefix(f.message, SyntaxMessagePrefix)
    ensures e == UnexpectedEOF ==> f == Failure(400, "malformed json")
    ensures e.TypeErr? ==>
              f.status == 400 && HasPrefix(f.message, TypeMessagePrefix + Quote(e.field) + TypeMessageInfix)
    ensures e.UnknownField? ==> f == Failure(400, "unknown field " + e.quoted)
    ensures e == EOF ==> f == Failure(400, "body must not be empty")
  {
    match e
    case Syntax(offset) => Failure(400, SyntaxMessagePrefix + Decimal(offset))
    case UnexpectedEOF => Failure(400, "malformed json")
    case TypeErr(field, offset) => Failure(400, TypeMessagePrefix + Quote(field) + TypeMessageInfix + Decimal(offset))
    case _ =>
      assert !HasPrefix(TooLargeText, UnknownFieldPrefix) by {
        assert TooLargeText[0] != UnknownFieldPrefix[0];
      }
      var text := Text(e);
      if HasPrefix(text, UnknownFieldPrefix) then
        Failure(400, "unknown field " + TrimPrefix(text, UnknownFieldPrefix + " "))
      else if e.EOF? then Failure(400, "body must not be empty")
      else if text == TooLargeText then Failure(413, text)
      else Failure(500, "failed to decode json: " + text)
  }

  /** The whole decode contract: status and error text for a Content-Type
      header and a decoder outcome. */
  function UnmarshalOutcome<T>(contentType: string, dec: Decoding<T>): (u: Unmarshalled)
    ensures u.status in {200, 400, 413, 415, 500}
    ensures u.err.None? <==> u.status == 200
    ensures u.status == 200 <==> IsJsonContentType(contentType) && dec.result.Ok? && !dec.more
    ensures u.status == 415 <==> !IsJsonContentType(contentType)
    ensures !IsJsonContentType(contentType) ==> u.err == Some(ContentTypeMessage)
    ensures IsJsonContentType(contentType) && dec.result.Err? ==>
              var f := DecodeFailure(dec.result.error); u == Unmarshalled(f.status, Some(f.message))
    ensures IsJsonContentType(contentType) && dec.result.Ok? && dec.more ==>
              u == Unmarshalled(400, Some("body must contain only one JSON object"))
  {
    if !IsJsonContentType(contentType) then
      Unmarshalled(Translate.StatusUnsupportedMediaType, Some(ContentTypeMessage))
    else if dec.result.Err? then
      var f := DecodeFailure(dec.result.error);
      Unmarshalled(f.status, Some(f.message))
    else if dec.more then
      Unmarshalled(Translate.StatusBadRequest, Some("body must contain only one JSON object"))
    else
      Unmarshalled(Translate.StatusOK, None)
  }

  /** The request as `Unmarshal` sees it: the Content-Type header value ("" when
      absent) and the state of its body stream. */
  class Request {
    const contentType: string
    /** `Some(n)` once the body has been wrapped in a MaxBytesReader of n bytes. */
    var bodyLimit: Option<nat>
    var bodyClosed: bool

    constructor (contentType: string)
      ensures this.contentType == contentType
      ensures bodyLimit == None && !bodyClosed
    {
      this.contentType := contentType;
      bodyLimit := None;
      bodyClosed := false;
    }
  }

  /** `Unmarshal`: a wrong Content-Type returns 415 before the body is
      touched; otherwise the body is capped, decoded and closed on every
      return (the deferred Close). */
  method Unmarshal<T>(r: Request, dec: Decoding<T>) returns (status: int, err: Option<string>)
    modifies r
    ensures Unmarshalled(status, err) == UnmarshalOutcome(r.contentType, dec)
    ensures IsJsonContentType(r.contentType) ==> r.bodyLimit == Some(MaxBodyBytes) && r.bodyClosed
    ensures !IsJsonContentType(r.contentType) ==>
              r.bodyLimit == old(r.bodyLimit) && r.bodyClosed == old(r.bodyClosed)
  {
    var t := r.contentType;
    if |t| < 16 || t[..16] != JsonMediaType {
      return Translate.StatusUnsupportedMediaType, Some(ContentTypeMessage);
    }
    r.bodyLimit := Some(MaxBodyBytes);
    match dec.result {
      case Err(e) =>
        var f := DecodeFailure(e);
        status, err := f.status, Some(f.message);
      case Ok(_) =>
        if dec.more {
          status, err := Translate.StatusBadRequest, Some("body must contain only one JSON object");
        } else {
          status, err := Translate.StatusOK, None;
        }
    }
    r.bodyClosed := true;
  }

  /** The Content-Type test is exactly "starts with application/json". */
  lemma JsonContentTypeIsPrefix(contentType: string)
    ensures IsJsonContentType(contentType) <==> exists suffix :: contentType == JsonMediaType + suffix
  {
    if IsJsonContentType(contentType) {
      assert contentType == JsonMediaType + contentType[16..];
    }
  }

  /** A media-type parameter after the type is accepted; a bare or different
      type is refused. */
  lemma ContentTypeExamples()
    ensures IsJsonContentType("application/json; charset=utf-8")
    ensures !IsJsonContentType("application/jso")
    ensures !IsJsonContentType("text/plain")
  {
  }

  /** A syntax error's message carries its byte offset in decimal, so the
      offset can be read back from the message. */
  lemma SyntaxMessageCarriesOffset(offset: nat)
    ensures var m := DecodeFailure(Syntax(offset)).message;
      HasPrefix(m, SyntaxMessagePrefix) &&
      (forall i :: |SyntaxMessagePrefix| <= i < |m| ==> IsDigit(m[i])) &&
      DigitsValue(m[|SyntaxMessagePrefix|..]) == offset &&
      m[|SyntaxMessagePrefix|..] == Decimal(offset)
  {
    var m := DecodeFailure(Syntax(offset)).message;
    assert m[|SyntaxMessagePrefix|..] == Decimal(offset);
    DecimalRoundTrip(offset);
  }

  /** An unknown field is reported by its (quoted) name. */
  lemma UnknownFieldMessageNamesField(quoted: string)
    ensures DecodeFailure(UnknownField(quoted)) == Failure(400, "unknown field " + quoted)
  {
  }

  /** The last four tests look only at the error's text, except the EOF test:
      any error whose text reads like an unknown-field or a too-large error is
      classified like one, while an error that merely reads "EOF" is not the
      io.EOF sentinel and falls to 500. */
  lemma ClassificationFollowsText(quoted: string)
    ensures DecodeFailure(Other(UnknownFieldPrefix + " " + quoted)) == DecodeFailure(UnknownField(quoted))
    ensures DecodeFailure(Other(TooLargeText)) == DecodeFailure(TooLarge) == Failure(413, TooLargeText)
    ensures DecodeFailure(EOF) == Failure(400, "body must not be empty")
    ensures DecodeFailure(Other("EOF")).status == 500
  {
  }

  /** A type mismatch is reported by the quoted field name and the byte
      offset in decimal; both can be read back from the message. */
  lemma TypeMessageCarriesFieldAndOffset(field: string, offset: nat)
    ensures var m := DecodeFailure(TypeErr(field, offset)).message;
      var n := |TypeMessagePrefix + Quote(field) + TypeMessageInfix|;
      && m[..n] == TypeMessagePrefix + Quote(field) + TypeMessageInfix
      && (forall i :: n <= i < |m| ==> IsDigit(m[i]))
      && DigitsValue(m[n..]) == offset
      && m[n..] == Decimal(offset)
  {
    var m := DecodeFailure(TypeErr(field, offset)).message;
    var n := |TypeMessagePrefix + Quote(field) + TypeMessageInfix|;
    assert m[n..] == Decimal(offset);
    DecimalRoundTrip(offset);
  }

  /** Without the space after "field" the prefix test still matches but the
      trim does not, so the whole text is echoed after "unknown field ". */
  lemma UnknownFieldWithoutSpace(text: string)
    requires HasPrefix(text, UnknownFieldPrefix)
    requires |text| == |UnknownFieldPrefix| || text[|UnknownFieldPrefix|] != ' '
    ensures DecodeFailure(Other(text)) == Failure(400, "unknown field " + text)
  {
    assert !HasPrefix(text, UnknownFieldPrefix + " ") by {
      if |text| > |UnknownFieldPrefix| {
        assert text[|UnknownFieldPrefix|] != (UnknownFieldPrefix + " ")[|UnknownFieldPrefix|];
      }
    }
  }
}

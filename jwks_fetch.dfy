/** The key-set download of jwk_client.go (downloadKeys): a classifier over the outcome of one
    `GET <uri>` against the JWK Set endpoint (section 5 of RFC 7517). The HTTP exchange and the
    JSON decoder are not modelled; their results are the input. */
module JwksFetch {
  import opened Wrappers
  import opened Errors
  import opened Jose

  /** The media-type prefixes the client accepts: plain JSON, and the JWK Set type registered
      in section 8.5 of RFC 7517. */
  const JsonMediaType: string := "application/json"
  const JwkSetMediaType: string := "application/jwk-set+json"

  /** What `json.NewDecoder(resp.Body).Decode(&jwks)` yields: an error, or the `keys` array. */
  datatype Body = DecodeFailed(err: Error) | Decoded(keys: seq<Key>)

  /** The outcome of building and sending the request. `contentType` is the value of the
      Content-Type header, or "" when the header is absent, as Header.Get returns. */
  datatype HttpOutcome =
    | RequestFailed(err: Error)     // http.NewRequest refused the configured URI
    | TransportFailed(err: Error)   // Client.Do returned an error
    | Response(status: int, contentType: string, body: Body)

  /** Go's strings.HasPrefix, a case-sensitive prefix test. Go compares bytes and this compares
      characters; the two agree here because both accepted prefixes are ASCII. */
  predicate HasPrefix(s: string, prefix: string) {
    |prefix| <= |s| && s[..|prefix|] == prefix
  }

  /** The content-type check of downloadKeys. */
  predicate AcceptedContentType(contentType: string) {
    HasPrefix(contentType, JsonMediaType) || HasPrefix(contentType, JwkSetMediaType)
  }

  /** downloadKeys, with the network round trip replaced by its outcome `o`. Checks run in the
      source's order: request, transport, content type, decoding, emptiness. Every failure
      carries no key list, as the source returns an empty slice beside each error. */
  function DownloadKeys(o: HttpOutcome): (r: Result<seq<Key>, Error>)
    ensures o.RequestFailed? || o.TransportFailed? ==> r == Failure(o.err)
    ensures o.Response? && !AcceptedContentType(o.contentType) ==> r == Failure(InvalidContentType)
    ensures o.Response? && AcceptedContentType(o.contentType) && o.body.DecodeFailed? ==>
              r == Failure(o.body.err)
    ensures o.Response? && AcceptedContentType(o.contentType) && o.body == Decoded([]) ==>
              r == Failure(NoKeyFound)
    ensures r.Success? <==>
              o.Response? && AcceptedContentType(o.contentType) && o.body.Decoded? && o.body.keys != []
    ensures r.Success? ==> r.value == o.body.keys && |r.value| >= 1
  {
    match o
    case RequestFailed(err) => Failure(err)
    case TransportFailed(err) => Failure(err)
    case Response(_, contentType, body) =>
      if !AcceptedContentType(contentType) then Failure(InvalidContentType)
      else match body
        case DecodeFailed(err) => Failure(err)
        case Decoded(keys) =>
          if |keys| < 1 then Failure(NoKeyFound)
          else Success(keys)
  }

  /** The errors downloadKeys raises itself, as opposed to those it passes on. */
  predicate RaisedByDownload(e: Error) {
    e == InvalidContentType || e == NoKeyFound
  }

  /** A failed download reports either an error it passes on unchanged from the request, the
      transport or the decoder, or one of its own two errors; it never invents another. */
  lemma DownloadErrorOrigin(o: HttpOutcome)
    requires DownloadKeys(o).Failure?
    ensures var e := DownloadKeys(o).error;
      || (o.RequestFailed? && e == o.err)
      || (o.TransportFailed? && e == o.err)
      || (o.Response? && o.body.DecodeFailed? && e == o.body.err)
      || (o.Response? && RaisedByDownload(e))
  {
  }

  /** The content type is decided before the body is looked at: with a refused content type,
      no body, however it decodes, changes the result. */
  lemma ContentTypeCheckedBeforeDecoding(status: int, contentType: string, b1: Body, b2: Body)
    requires !AcceptedContentType(contentType)
    ensures DownloadKeys(Response(status, contentType, b1)) == Failure(InvalidContentType)
    ensures DownloadKeys(Response(status, contentType, b1)) == DownloadKeys(Response(status, contentType, b2))
  {
  }

  /** The status code of the response is never inspected. */
  lemma StatusIgnored(s1: int, s2: int, contentType: string, body: Body)
    ensures DownloadKeys(Response(s1, contentType, body)) == DownloadKeys(Response(s2, contentType, body))
  {
  }

  /** A value that extends an accepted media type, such as one carrying a charset parameter,
      is accepted: the test is a prefix test. */
  lemma {:induction false} MediaTypeWithParametersAccepted(suffix: string)
    ensures AcceptedContentType(JsonMediaType + suffix)
    ensures AcceptedContentType(JwkSetMediaType + suffix)
  {
    assert (JsonMediaType + suffix)[..|JsonMediaType|] == JsonMediaType;
    assert (JwkSetMediaType + suffix)[..|JwkSetMediaType|] == JwkSetMediaType;
  }

  /** Every accepted value is one of the two media types followed by some (possibly empty)
      rest; together with MediaTypeWithParametersAccepted this characterises acceptance. */
  lemma AcceptedIsMediaTypePlusRest(contentType: string)
    requires AcceptedContentType(contentType)
    ensures contentType == JsonMediaType + contentType[|JsonMediaType|..]
         || contentType == JwkSetMediaType + contentType[|JwkSetMediaType|..]
  {
    if HasPrefix(contentType, JsonMediaType) {
      assert contentType == contentType[..|JsonMediaType|] + contentType[|JsonMediaType|..];
    } else {
      assert contentType == contentType[..|JwkSetMediaType|] + contentType[|JwkSetMediaType|..];
    }
  }

  /** Concrete cases: a JSON response with a charset parameter is accepted; text/plain, a
      missing header and an upper-case spelling of the media type are refused, since the
      comparison is case-sensitive. */
  lemma ContentTypeExamples()
    ensures AcceptedContentType("application/json; charset=utf-8")
    ensures AcceptedContentType("application/jwk-set+json")
    ensures !AcceptedContentType("text/plain")
    ensures !AcceptedContentType("")
    ensures !AcceptedContentType("Application/JSON")
  {
    MediaTypeWithParametersAccepted("; charset=utf-8");
    MediaTypeWithParametersAccepted("");
    assert "application/jwk-set+json" == JwkSetMediaType + "";
    assert "Application/JSON"[0] != JsonMediaType[0];
  }

  /** Scenario outcomes: a text/plain answer gives InvalidContentType, an empty key set gives
      NoKeyFound, and a one-key set is returned as it is. */
  lemma DownloadExamples(k: Key)
    ensures DownloadKeys(Response(200, "text/plain", Decoded([k]))) == Failure(InvalidContentType)
    ensures DownloadKeys(Response(200, "application/json", Decoded([]))) == Failure(NoKeyFound)
    ensures DownloadKeys(Response(200, "application/json; charset=utf-8", Decoded([k]))) == Success([k])
  {
    ContentTypeExamples();
    MediaTypeWithParametersAccepted("");
    assert "application/json" == JsonMediaType + "";
  }
}

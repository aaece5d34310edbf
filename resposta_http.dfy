/**
 * The result record of an HTTP call (class RespostaHttp): the request URL,
 * an error message, the HTTP status code, the MIME type and the raw body.
 * Its five fields are assigned once, by the constructor, and nothing in the
 * library updates them afterwards, so the record is a value here.
 */
module Resposta {
  import opened Common

  const JsonMime := "application/json"

  /**
   * The test the library applies to a content type before treating a body as
   * JSON: the type is present, truthy, and its first 16 characters are
   * "application/json".
   */
  predicate IsJsonType(contentType: Option<string>) {
    contentType.Some? && Truthy(contentType.value) && StartsWith(contentType.value, JsonMime)
  }

  /**
   * The constructor's optional arguments default to null, as in PHP.
   * The field PHP calls `type` is `contentType` here (`type` is a Dafny keyword).
   */
  datatype RespostaHttp = RespostaHttp(
    url: string,
    error: Option<string> := None,
    code: Option<int> := None,
    contentType: Option<string> := None,
    response: Option<string> := None)
  {
    /** isJson: a content type is present and begins with "application/json". */
    predicate IsJson()
      ensures IsJson() <==> contentType.Some? && StartsWith(contentType.value, JsonMime)
    {
      IsJsonType(contentType)
    }

    /** The Portuguese alias of isJson. */
    predicate EhJson()
      ensures EhJson() <==> contentType.Some? && StartsWith(contentType.value, JsonMime)
    {
      IsJson()
    }

    /**
     * The decoded body, or null when the content type is not JSON.
     * `decode` stands for PHP's json_decode (with the caller's choice of
     * associative arrays), which is not part of this model.
     */
    function GetJson<J>(decode: Option<string> -> Option<J>): (r: Option<J>)
      ensures !IsJson() ==> r == None
      ensures IsJson() ==> r == decode(response)
    {
      if !IsJson() then None else decode(response)
    }

    /** The Portuguese alias of GetJson. */
    function ObterJson<J>(decode: Option<string> -> Option<J>): (r: Option<J>)
      ensures r == GetJson(decode)
      ensures r.Some? ==> IsJson()
    {
      GetJson(decode)
    }
  }

  /** A record built from the URL alone has every other field null. */
  lemma ConstructorDefaults(url: string)
    ensures RespostaHttp(url) == RespostaHttp(url, None, None, None, None)
    ensures !RespostaHttp(url).IsJson()
  {
  }

  /** The JSON test in concrete terms: a charset suffix is accepted, other types and null are not. */
  lemma IsJsonTypeExamples()
    ensures IsJsonType(Some("application/json; charset=utf-8"))
    ensures IsJsonType(Some("application/json"))
    ensures !IsJsonType(Some("text/html"))
    ensures !IsJsonType(Some("application/jso"))
    ensures !IsJsonType(None)
  {
    assert "application/json; charset=utf-8"[..16] == JsonMime;
    assert "text/html"[0] != JsonMime[0];
  }

  /** A JSON type is exactly a string that starts with "application/json". */
  lemma IsJsonTypeIsPrefix(t: string)
    ensures IsJsonType(Some(t)) <==> StartsWith(t, JsonMime)
  {
    if StartsWith(t, JsonMime) {
      assert t[0] == 'a';
    }
  }
}

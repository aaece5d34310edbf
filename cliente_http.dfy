/**
 * The request/result rules of ClienteHttp::send, which ClienteApiV3::send
 * repeats word for word: how the URL, the headers and the body of a request
 * are built, and how the transport outcome becomes a RespostaHttp.
 *
 * The curl transfer itself is not modelled. Its outcome is an input
 * (Transporte), and so is the `mensagem` member that json_decode would find
 * in the body of an error response.
 */
module Http {
  import opened Common
  import opened Resposta

  const CacheControl := "Cache-Control: no-cache"
  const ContentTypeJson := "Content-Type: application/json"

  /** The methods that get a JSON content type and a body: POST, PUT and PATCH. */
  predicate SendsBody(httpMethod: string) {
    httpMethod == "POST" || httpMethod == "PUT" || httpMethod == "PATCH"
  }

  /** What curl reports after the transfer. */
  datatype Transporte = Transporte(
    curlError: string,           // curl_error(): "" when the transfer succeeded
    httpCode: int,               // curl_getinfo(CURLINFO_HTTP_CODE)
    contentType: Option<string>, // curl_getinfo(CURLINFO_CONTENT_TYPE): null when the server sent none
    body: Option<string>)        // curl_exec(): None stands for its `false`

  /** What is handed to curl: URL, method, header list and CURLOPT_POSTFIELDS (None when not set). */
  datatype Pedido = Pedido(url: string, httpMethod: string, headers: seq<string>, postFields: Option<string>)

  /** An endpoint gets a leading "/" unless it already has one. */
  function NormalizeEndpoint(endpoint: string): (r: string)
    ensures |r| > 0 && r[0] == '/'
    ensures r == endpoint || r == "/" + endpoint
    ensures |endpoint| > 0 && endpoint[0] == '/' ==> r == endpoint
  {
    if StartsWith(endpoint, "/") then endpoint else "/" + endpoint
  }

  lemma NormalizeEndpointIdempotent(endpoint: string)
    ensures NormalizeEndpoint(NormalizeEndpoint(endpoint)) == NormalizeEndpoint(endpoint)
  {
  }

  /** The header list: Cache-Control always, the JSON content type only for methods that send a body. */
  function Headers(httpMethod: string): (h: seq<string>)
    ensures |h| > 0 && h[0] == CacheControl
    ensures ContentTypeJson in h <==> SendsBody(httpMethod)
    ensures |h| == if SendsBody(httpMethod) then 2 else 1
  {
    [CacheControl] + (if SendsBody(httpMethod) then [ContentTypeJson] else [])
  }

  /** The request that send builds before calling curl. */
  function Request(baseUrl: string, httpMethod: string, endpoint: string, body: Option<string>): (p: Pedido)
    ensures p.httpMethod == httpMethod
    ensures StartsWith(p.url, baseUrl) && p.url[|baseUrl|..] == NormalizeEndpoint(endpoint)
    ensures p.headers == Headers(httpMethod)
    ensures SendsBody(httpMethod) ==> p.postFields == body
    ensures !SendsBody(httpMethod) ==> p.postFields == None
  {
    var p := Pedido(baseUrl + NormalizeEndpoint(endpoint), httpMethod, Headers(httpMethod),
                    if SendsBody(httpMethod) then body else None);
    assert p.url[..|baseUrl|] == baseUrl;
    p
  }

  /** `curl_error($curl) ?: null`. */
  function TransportError(t: Transporte): (r: Option<string>)
    ensures r == None || (r == Some(t.curlError) && t.curlError != "")
    ensures t.curlError == "" ==> r == None
  {
    if Truthy(t.curlError) then Some(t.curlError) else None
  }

  /**
   * The condition under which the remote `mensagem` replaces the error: no
   * transport error, a truthy body, status at least 400, a JSON content type
   * and a non-empty `mensagem` (PHP's `!empty`, which also rejects "0").
   */
  predicate Promotes(t: Transporte, mensagem: Option<string>)
    ensures Promotes(t, mensagem) ==>
              TransportError(t).None? && t.httpCode >= 400 && t.contentType.Some? &&
              StartsWith(t.contentType.value, JsonMime) && mensagem.Some? && mensagem.value != ""
  {
    && TransportError(t).None?
    && t.body.Some? && Truthy(t.body.value)
    && t.httpCode >= 400
    && IsJsonType(t.contentType)
    && mensagem.Some? && Truthy(mensagem.value)
  }

  /**
   * The body as RespostaHttp stores it: curl_exec's `false` reaches the
   * constructor's `?string` parameter as "" under PHP's scalar coercion.
   */
  function RawBody(t: Transporte): string {
    if t.body.Some? then t.body.value else ""
  }

  /** The RespostaHttp that send returns for a request to `url`. */
  function Result(url: string, t: Transporte, mensagem: Option<string>): (r: RespostaHttp)
    ensures r.url == url
    ensures r.response == Some(RawBody(t))
    // a transport error takes precedence over everything the server said
    ensures TransportError(t).Some? ==>
              r.error == TransportError(t) && r.code == None && r.contentType == None
    ensures TransportError(t).None? ==> r.code == Some(t.httpCode) && r.contentType == t.contentType
    // otherwise the error is the remote message exactly when that message is promoted
    ensures TransportError(t).None? ==> (r.error.Some? <==> Promotes(t, mensagem))
    ensures Promotes(t, mensagem) ==> r.error == mensagem
  {
    var error := TransportError(t);
    var code := if error.None? then Some(t.httpCode) else None;
    var contentType := if error.None? then t.contentType else None;
    RespostaHttp(url, if Promotes(t, mensagem) then mensagem else error, code, contentType, Some(RawBody(t)))
  }

  /**
   * The body of send for a given base URL, step by step as written: the endpoint is normalised,
   * the header list is appended to, and the error of the result is first the
   * transport error and then, possibly, overwritten by the remote message.
   */
  method SendTo(baseUrl: string, httpMethod: string, endpoint: string, body: Option<string>,
              t: Transporte, mensagem: Option<string>)
    returns (pedido: Pedido, resposta: RespostaHttp)
    ensures pedido == Request(baseUrl, httpMethod, endpoint, body)
    ensures resposta == Result(pedido.url, t, mensagem)
  {
    var ep := endpoint;
    if !StartsWith(ep, "/") {
      ep := "/" + ep;
    }
    var url := baseUrl + ep;

    var headers := [CacheControl];
    if SendsBody(httpMethod) {
      headers := headers + [ContentTypeJson];
    }
    var postFields: Option<string> := None;
    if SendsBody(httpMethod) {
      postFields := body;
    }
    pedido := Pedido(url, httpMethod, headers, postFields);

    var error: Option<string> := if Truthy(t.curlError) then Some(t.curlError) else None;
    var code: Option<int> := if error.None? then Some(t.httpCode) else None;
    var contentType := if error.None? then t.contentType else None;
    var response := if t.body.Some? then t.body.value else "";

    if error.None? && t.body.Some? && Truthy(t.body.value) && code.value >= 400 && IsJsonType(contentType) {
      if mensagem.Some? && Truthy(mensagem.value) {
        error := mensagem;
      }
    }
    resposta := RespostaHttp(url, error, code, contentType, Some(response));
  }

  /** Below 400, or with a content type that is not JSON, the remote message never becomes the error. */
  lemma NoPromotionOutsideJsonErrors(url: string, t: Transporte, mensagem: Option<string>)
    requires TransportError(t).None?
    requires t.httpCode < 400 || !IsJsonType(t.contentType)
    ensures Result(url, t, mensagem).error == None
  {
  }

  /** A 422 JSON response carrying a `mensagem` reports that message, and keeps the status and the body. */
  lemma PromotionExample(url: string)
    ensures var body := "{\"mensagem\":\"saldo insuficiente\"}";
            var r := Result(url, Transporte("", 422, Some("application/json"), Some(body)),
                            Some("saldo insuficiente"));
            r.error == Some("saldo insuficiente") && r.code == Some(422) && r.response == Some(body)
  {
    assert StartsWith("application/json", JsonMime);
  }

  /** The abstract wrapper ClienteHttp: subclasses choose the base URL. */
  class ClienteHttp {
    const baseUrl: string

    constructor (baseUrl: string := "http://exemplo.com.br")
      ensures this.baseUrl == baseUrl
    {
      this.baseUrl := baseUrl;
    }

    method Send(httpMethod: string, endpoint: string, body: Option<string>, t: Transporte, mensagem: Option<string>)
      returns (pedido: Pedido, resposta: RespostaHttp)
      ensures pedido == Request(baseUrl, httpMethod, endpoint, body)
      ensures resposta == Result(pedido.url, t, mensagem)
    {
      pedido, resposta := SendTo(baseUrl, httpMethod, endpoint, body, t, mensagem);
    }
  }
}

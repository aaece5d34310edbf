/**
 * ClienteApiV3: the client of the central billing API. Its send repeats the
 * rules of ClienteHttp::send with a fixed base URL; consultarCobrancas is the
 * one operation, a GET built from the region id and the CPF/CNPJ.
 */
module ApiV3 {
  import opened Common
  import opened Resposta
  import opened Http

  const BaseUrl := "https://api.conselho.net.br/v3"

  /** The endpoint of consultarCobrancas, as PHP's string interpolation writes it. */
  function ConsultarCobrancasEndpoint(regional: int, cpfCnpj: string): (e: string)
    ensures StartsWith(e, CobrancasPrefix)
    ensures |e| >= |cpfCnpj| && e[|e| - |cpfCnpj|..] == cpfCnpj
  {
    CobrancasPrefix + IntToString(regional) + "&cpf=" + cpfCnpj
  }

  const CobrancasPrefix := "/financeiro/consultar-cobrancas?regional="

  /** In the endpoint, the region's digits run up to the first '&'. */
  lemma RegionEndsAtAmpersand(regional: int, cpfCnpj: string)
    ensures var e, n, s := ConsultarCobrancasEndpoint(regional, cpfCnpj), |CobrancasPrefix|, IntToString(regional);
            n + |s| < |e| && e[n + |s|] == '&' &&
            (forall i :: n <= i < n + |s| ==> e[i] != '&') &&
            e[n..n + |s|] == s
  {
    var e, n, s := ConsultarCobrancasEndpoint(regional, cpfCnpj), |CobrancasPrefix|, IntToString(regional);
    forall i | n <= i < n + |s| ensures e[i] != '&' {
      assert e[i] == s[i - n];
    }
  }

  /** Different regions or different documents give different endpoints. */
  lemma ConsultarCobrancasEndpointInjective(r1: int, c1: string, r2: int, c2: string)
    requires ConsultarCobrancasEndpoint(r1, c1) == ConsultarCobrancasEndpoint(r2, c2)
    ensures r1 == r2 && c1 == c2
  {
    var n := |CobrancasPrefix|;
    var e := ConsultarCobrancasEndpoint(r1, c1);
    var s1, s2 := IntToString(r1), IntToString(r2);
    RegionEndsAtAmpersand(r1, c1);
    RegionEndsAtAmpersand(r2, c2);
    assert |s1| == |s2|;
    IntToStringInjective(r1, r2);
    assert c1 == e[n + |s1| + 5..] == c2;
  }

  class ClienteApiV3 {
    const baseUrl: string := BaseUrl

    method Send(httpMethod: string, endpoint: string, body: Option<string>, t: Transporte, mensagem: Option<string>)
      returns (pedido: Pedido, resposta: RespostaHttp)
      ensures pedido == Request(BaseUrl, httpMethod, endpoint, body)
      ensures resposta == Result(pedido.url, t, mensagem)
    {
      pedido, resposta := SendTo(baseUrl, httpMethod, endpoint, body, t, mensagem);
    }

    /** The charges of a registration, looked up by region and CPF/CNPJ. */
    method ConsultarCobrancas(regional: int, cpfCnpj: string, t: Transporte, mensagem: Option<string>)
      returns (pedido: Pedido, resposta: RespostaHttp)
      ensures pedido.httpMethod == "GET"
      ensures pedido.url == BaseUrl + ConsultarCobrancasEndpoint(regional, cpfCnpj)
      ensures pedido.headers == [CacheControl] && pedido.postFields == None
      ensures resposta == Result(pedido.url, t, mensagem)
    {
      var endpoint := ConsultarCobrancasEndpoint(regional, cpfCnpj);
      pedido, resposta := Send("GET", endpoint, None, t, mensagem);
      assert endpoint[0] == '/';
      assert pedido.url == pedido.url[..|BaseUrl|] + pedido.url[|BaseUrl|..];
    }
  }
}

/**
 * The Cielo e-commerce client (class Api): host selection, the request each
 * operation builds, the local validation of a credit transaction and the
 * installment estimate.
 *
 * The curl transfer and json_encode/json_decode are not modelled: a request
 * is described by a Chamada value and the payload by a Venda record, and the
 * transfer's outcome is an input (Http.Transporte).
 */
module Cielo {
  import opened Common
  import opened Resposta
  import opened Http
  import opened CieloBandeira

  const HostTransacoes := "https://api.cieloecommerce.cielo.com.br"
  const HostConsultas := "https://apiquery.cieloecommerce.cielo.com.br"
  const HostTransacoesSandbox := "https://apisandbox.cieloecommerce.cielo.com.br"
  const HostConsultasSandbox := "https://apiquerysandbox.cieloecommerce.cielo.com.br"

  const MsgIdentificadorLongo := "O identificador atribuído a transação está muito longo. O limite é de 50 digitos."
  const MsgDescricaoLonga := "A descrição está acima do comprimento permitido de 13 caracteres."
  const MsgValidade := "A validade do cartão precisa ser informada no formato MM/AAAA."
  const MsgValorZero := "Não é possível realizar uma transação com valor zero."
  const MsgBandeira := "A bandeira do cartão informado não é aceita no momento."

  /** The brands the gateway accepts. */
  const BandeirasCompativeis: seq<string> :=
    ["Visa", "Master", "Amex", "Elo", "Aura", "JCB", "Diners", "Discover", "Hipercard", "Hiper"]

  /**
   * The payload of a credit sale, field by field; `Payment.Type` is always
   * "CreditCard" and the printed name is both `Customer.Name` and
   * `CreditCard.Holder`.
   */
  datatype Venda = Venda(
    merchantOrderId: string, nomeImpresso: string, captura: bool, valor: int, parcelas: int,
    softDescriptor: string, numero: string, validade: string, cvv: string, bandeira: string)

  /** A request as send hands it to curl: method, URL, header list and body (None for null). */
  datatype Chamada = Chamada(metodo: string, url: string, cabecalhos: seq<string>, corpo: Option<Venda>)

  /**
   * The 'response' entry of send's result: curl_exec's `false`, the raw body,
   * or a body json_decode was applied to.
   */
  datatype Corpo = Falso | Texto(texto: string) | Json(texto: string)

  /** The array send returns: 'error', 'code', 'type' and 'response'. */
  datatype Retorno = Retorno(error: Option<string>, code: Option<int>, contentType: Option<string>, response: Corpo)

  /** What criarTransacaoCredito does: return an error-only array, or send the sale. */
  datatype Criacao = Recusada(erro: string) | Enviada(chamada: Chamada)

  /** The second half of send: the transfer's outcome as the returned array. */
  function Receber(t: Transporte): (r: Retorno)
    // a transport error wins, and hides the status and the content type
    ensures TransportError(t).Some? ==> r.error == TransportError(t) && r.code == None && r.contentType == None
    ensures TransportError(t).None? ==> r.error == None && r.code == Some(t.httpCode) && r.contentType == t.contentType
    // the body is decoded exactly when it is non-empty and the type is JSON
    ensures r.response.Json? <==> TransportError(t).None? && IsJsonType(t.contentType) && t.body.Some? && Truthy(t.body.value)
    ensures r.response.Falso? <==> t.body.None?
    ensures !r.response.Falso? ==> t.body == Some(r.response.texto)
  {
    var error := TransportError(t);
    var contentType := if error.None? then t.contentType else None;
    var code := if error.None? then Some(t.httpCode) else None;
    var response :=
      if t.body.None? then Falso
      else if IsJsonType(contentType) && Truthy(t.body.value) then Json(t.body.value)
      else Texto(t.body.value);
    Retorno(error, code, contentType, response)
  }

  /**
   * `substr($s, 0, $n)` and `substr($s, $n)` for a non-negative `$n`, on
   * characters (PHP cuts bytes; the two agree on ASCII text).
   */
  function Inicio(s: string, n: nat): (r: string)
    ensures |r| == if n <= |s| then n else |s|
    ensures r == s[..|r|]
  {
    if n <= |s| then s[..n] else s
  }

  function Resto(s: string, n: nat): (r: string)
    ensures |r| == if n <= |s| then |s| - n else 0
    ensures Inicio(s, n) + r == s
  {
    if n <= |s| then s[n..] else ""
  }

  /** The expiry rewrite: "20" is inserted after the first three characters, "MM/YY" becoming "MM/20YY". */
  function NormalizarValidade(validade: string): (r: string)
    ensures |r| == |validade| + 2 && Utf8Len(r) == Utf8Len(validade) + 2
    ensures |validade| >= 3 ==> r[..3] == validade[..3] && r[3..5] == "20" && r[5..] == validade[3..]
  {
    var r := Inicio(validade, 3) + "20" + Resto(validade, 3);
    Utf8LenConcat(Inicio(validade, 3), "20");
    Utf8LenConcat(Inicio(validade, 3) + "20", Resto(validade, 3));
    assert validade == Inicio(validade, 3) + Resto(validade, 3);
    Utf8LenConcat(Inicio(validade, 3), Resto(validade, 3));
    AsciiUtf8Len("20");
    r
  }

  /** The byte length of a concatenation is the sum of the byte lengths. */
  lemma {:induction false} Utf8LenConcat(a: string, b: string)
    ensures Utf8Len(a + b) == Utf8Len(a) + Utf8Len(b)
  {
    if |b| == 0 {
      assert a + b == a;
    } else {
      Utf8LenConcat(a, b[..|b| - 1]);
      assert (a + b)[..|a + b| - 1] == a + b[..|b| - 1];
      assert (a + b)[|a + b| - 1] == b[|b| - 1];
    }
  }

  /**
   * The card expiry stored in the instance after criarTransacaoCredito: it is
   * rewritten once the first two checks pass and it has five bytes, whatever
   * the later checks decide.
   */
  function ValidadeApos(merchantOrderId: string, descricao: string, validade: string): (r: string)
    ensures r == validade || (Utf8Len(validade) == 5 && r == NormalizarValidade(validade))
    ensures Utf8Len(validade) == 7 ==> r == validade
    ensures r != validade <==> Utf8Len(merchantOrderId) <= 50 && Utf8Len(descricao) <= 13 && Utf8Len(validade) == 5
  {
    if Utf8Len(merchantOrderId) <= 50 && Utf8Len(descricao) <= 13 && Utf8Len(validade) == 5
    then NormalizarValidade(validade)
    else validade
  }

  /** A second transaction with the same data leaves the expiry as the first one left it. */
  lemma ValidadeIdempotente(merchantOrderId: string, descricao: string, validade: string)
    ensures ValidadeApos(merchantOrderId, descricao, ValidadeApos(merchantOrderId, descricao, validade))
            == ValidadeApos(merchantOrderId, descricao, validade)
  {
  }

  lemma ExemploValidade()
    ensures NormalizarValidade("12/30") == "12/2030"
    ensures ValidadeApos("pedido-1", "loja", "12/30") == "12/2030"
    ensures ValidadeApos("pedido-1", "loja", "12/2030") == "12/2030"
  {
    AsciiUtf8Len("pedido-1");
    AsciiUtf8Len("loja");
    AsciiUtf8Len("12/30");
    AsciiUtf8Len("12/2030");
  }

  /** PHP's `%`: the remainder takes the sign of the dividend. */
  function PhpMod(a: int, n: int): (r: int)
    requires n > 0
    ensures -n < r < n
    ensures a >= 0 ==> r == a % n
    ensures a < 0 ==> r <= 0
  {
    if a >= 0 then a % n else -((-a) % n)
  }

  /**
   * The installments estimarValorDasParcelas returns: `valorTotal / numParcelas`
   * rounded down, one cent more on each of the first `valorTotal % numParcelas`
   * installments (none when that remainder is not positive).
   */
  function Parcelas(valorTotal: int, numParcelas: int): (p: seq<int>)
    requires numParcelas >= 1
    ensures |p| == numParcelas
  {
    seq(numParcelas, i requires 0 <= i < numParcelas =>
      valorTotal / numParcelas + (if i < PhpMod(valorTotal, numParcelas) then 1 else 0))
  }

  function Soma(s: seq<int>): int {
    if |s| == 0 then 0 else Soma(s[..|s| - 1]) + s[|s| - 1]
  }

  /** The first k installments add up to k base values plus the extra cents among them. */
  lemma {:induction false} SomaPrefixo(valorTotal: int, numParcelas: int, k: int)
    requires numParcelas >= 1 && 0 <= k <= numParcelas
    ensures var resto := PhpMod(valorTotal, numParcelas);
            Soma(Parcelas(valorTotal, numParcelas)[..k]) ==
              k * (valorTotal / numParcelas) + (if resto <= 0 then 0 else if k <= resto then k else resto)
  {
    if k > 0 {
      var p := Parcelas(valorTotal, numParcelas);
      assert p[..k][..k - 1] == p[..k - 1];
      SomaPrefixo(valorTotal, numParcelas, k - 1);
    }
  }

  /** For a non-negative total the installments add up to the total. */
  lemma SomaDasParcelas(valorTotal: int, numParcelas: int)
    requires valorTotal >= 0 && numParcelas >= 1
    ensures Soma(Parcelas(valorTotal, numParcelas)) == valorTotal
  {
    var p := Parcelas(valorTotal, numParcelas);
    SomaPrefixo(valorTotal, numParcelas, numParcelas);
    assert p[..numParcelas] == p;
  }

  /**
   * The installments add up to the total exactly when the total is
   * non-negative or divisible: for a negative total PHP's `%` is not
   * positive, no cent is added, and the rounded-down base falls short.
   */
  lemma SomaExataSse(valorTotal: int, numParcelas: int)
    requires numParcelas >= 1
    ensures Soma(Parcelas(valorTotal, numParcelas)) == valorTotal <==> valorTotal >= 0 || valorTotal % numParcelas == 0
  {
    var p := Parcelas(valorTotal, numParcelas);
    SomaPrefixo(valorTotal, numParcelas, numParcelas);
    assert p[..numParcelas] == p;
    assert valorTotal == numParcelas * (valorTotal / numParcelas) + valorTotal % numParcelas;
  }

  /** Every installment is the base or one cent more; the larger ones come first. */
  lemma FormaDasParcelas(valorTotal: int, numParcelas: int)
    requires numParcelas >= 1
    ensures var p, base := Parcelas(valorTotal, numParcelas), valorTotal / numParcelas;
            && (forall i :: 0 <= i < numParcelas ==> p[i] == base || p[i] == base + 1)
            && (forall i :: 0 <= i < numParcelas ==> (p[i] == base + 1 <==> i < PhpMod(valorTotal, numParcelas)))
            && (forall i, j :: 0 <= i <= j < numParcelas ==> p[i] >= p[j])
  {
  }

  lemma ExemploParcelas()
    ensures Parcelas(1700, 3) == [567, 567, 566]
    ensures Parcelas(1700, 1) == [1700]
    ensures Soma(Parcelas(-1700, 3)) == -1701
  {
    assert PhpMod(1700, 3) == 2 && 1700 / 3 == 566;
    assert Parcelas(1700, 3)[0] == 567 && Parcelas(1700, 3)[1] == 567 && Parcelas(1700, 3)[2] == 566;
    assert PhpMod(1700, 1) == 0 && Parcelas(1700, 1)[0] == 1700;
    assert PhpMod(-1700, 3) == -2;
    assert Parcelas(-1700, 3) == [-567, -567, -567];
    assert Parcelas(-1700, 3)[..2] == [-567, -567];
    assert Parcelas(-1700, 3)[..2][..1] == [-567];
  }

  class Api {
    const merchantId: string
    const merchantKey: string
    const baseUrlTransacoes: string
    const baseUrlConsultas: string

    var cartaoNumero: string
    var cartaoNomeImpresso: string
    var cartaoValidade: string
    var cartaoCvv: string

    /** The two hosts are the production pair or the sandbox pair. */
    predicate Valid() {
      || (baseUrlTransacoes == HostTransacoes && baseUrlConsultas == HostConsultas)
      || (baseUrlTransacoes == HostTransacoesSandbox && baseUrlConsultas == HostConsultasSandbox)
    }

    /**
     * The card fields start out unset; PHP's `strlen(null)` is 0, which the
     * empty string reproduces.
     */
    constructor (merchantId: string, merchantKey: string, sandbox: bool := false)
      ensures this.merchantId == merchantId && this.merchantKey == merchantKey
      ensures sandbox ==> baseUrlTransacoes == HostTransacoesSandbox && baseUrlConsultas == HostConsultasSandbox
      ensures !sandbox ==> baseUrlTransacoes == HostTransacoes && baseUrlConsultas == HostConsultas
      ensures Valid()
      ensures cartaoNumero == "" && cartaoNomeImpresso == "" && cartaoValidade == "" && cartaoCvv == ""
    {
      this.merchantId := merchantId;
      this.merchantKey := merchantKey;
      baseUrlTransacoes := if sandbox then HostTransacoesSandbox else HostTransacoes;
      baseUrlConsultas := if sandbox then HostConsultasSandbox else HostConsultas;
      cartaoNumero, cartaoNomeImpresso, cartaoValidade, cartaoCvv := "", "", "", "";
    }

    /**
     * Neither host of a valid pair is a prefix of a URL built on the other,
     * so a URL tells which host it was built on.
     */
    lemma HostsDistinguished(endpoint: string)
      ensures Valid() ==> !StartsWith(baseUrlTransacoes + endpoint, baseUrlConsultas)
      ensures Valid() ==> !StartsWith(baseUrlConsultas + endpoint, baseUrlTransacoes)
    {
      if Valid() {
        // the twelfth character is '.' or 's' on the transaction hosts and 'q' on the query hosts
        assert (baseUrlTransacoes + endpoint)[11] == baseUrlTransacoes[11] != baseUrlConsultas[11];
        assert (baseUrlConsultas + endpoint)[11] == baseUrlConsultas[11];
      }
    }

    /** The header list of every request. */
    function Cabecalhos(): (h: seq<string>)
      ensures |h| == 4 && h[0] == CacheControl && h[1] == ContentTypeJson
      ensures h[2] == "MerchantId: " + merchantId && h[3] == "MerchantKey: " + merchantKey
    {
      [CacheControl, ContentTypeJson, "MerchantId: " + merchantId, "MerchantKey: " + merchantKey]
    }

    /**
     * The request send builds: the endpoint goes after the query host when
     * `consultas` is set and after the transaction host otherwise; the body
     * goes out only with POST, PUT and PATCH.
     */
    function Send(metodo: string, endpoint: string, corpo: Option<Venda> := None, consultas: bool := false): (c: Chamada)
      ensures c.metodo == metodo && c.cabecalhos == Cabecalhos()
      ensures var host := if consultas then baseUrlConsultas else baseUrlTransacoes;
              StartsWith(c.url, host) && c.url[|host|..] == endpoint
      ensures Valid() ==> (StartsWith(c.url, baseUrlConsultas) <==> consultas)
      ensures Valid() ==> (StartsWith(c.url, baseUrlTransacoes) <==> !consultas)
      ensures SendsBody(metodo) ==> c.corpo == corpo
      ensures !SendsBody(metodo) ==> c.corpo == None
    {
      var host := if consultas then baseUrlConsultas else baseUrlTransacoes;
      var url := host + endpoint;
      assert url[..|host|] == host;
      HostsDistinguished(endpoint);
      Chamada(metodo, url, Cabecalhos(), if SendsBody(metodo) then corpo else None)
    }

    function ConsultaPorPaymentId(paymentId: string): (c: Chamada)
      ensures c.metodo == "GET" && c.corpo == None
      ensures c.url == baseUrlConsultas + "/1/sales/" + paymentId
    {
      Send("GET", "/1/sales/" + paymentId, None, true)
    }

    function ConsultaPorTId(tid: string): (c: Chamada)
      ensures c.metodo == "GET" && c.corpo == None
      ensures c.url == baseUrlConsultas + "/1/sales/acquirerTid/" + tid
    {
      Send("GET", "/1/sales/acquirerTid/" + tid, None, true)
    }

    function ConsultaPorMerchantOrderId(merchantOrderId: string): (c: Chamada)
      ensures c.metodo == "GET" && c.corpo == None
      ensures c.url == baseUrlConsultas + "/1/sales?merchantOrderId=" + merchantOrderId
    {
      Send("GET", "/1/sales?merchantOrderId=" + merchantOrderId, None, true)
    }

    function CancelamentoTotalPorMerchantOrderId(merchantOrderId: string, valor: int): (c: Chamada)
      ensures c.metodo == "PUT" && c.corpo == None
      ensures c.url == baseUrlTransacoes + "/1/sales/OrderId/" + merchantOrderId + "/void?amount=" + IntToString(valor)
    {
      Send("PUT", "/1/sales/OrderId/" + merchantOrderId + "/void?amount=" + IntToString(valor))
    }

    function CancelamentoTotalPorPaymentId(paymentId: string, valor: int): (c: Chamada)
      ensures c.metodo == "PUT" && c.corpo == None
      ensures c.url == baseUrlTransacoes + "/1/sales/" + paymentId + "/void?amount=" + IntToString(valor)
    {
      Send("PUT", "/1/sales/" + paymentId + "/void?amount=" + IntToString(valor))
    }

    /** A partial void is the same request as a total void by PaymentId. */
    function CancelamentoParcial(paymentId: string, valor: int): (c: Chamada)
      ensures c == CancelamentoTotalPorPaymentId(paymentId, valor)
    {
      Send("PUT", "/1/sales/" + paymentId + "/void?amount=" + IntToString(valor))
    }

    function CapturaTransacao(paymentId: string): (c: Chamada)
      ensures c.metodo == "PUT" && c.corpo == None
      ensures c.url == baseUrlTransacoes + "/1/sales/" + paymentId + "/capture"
    {
      Send("PUT", "/1/sales/" + paymentId + "/capture")
    }

    /**
     * criarTransacaoCredito for the card data `numero`, `nomeImpresso`,
     * `validade`, `cvv` held when it is called: the checks in their order,
     * each returning its own error, and otherwise a POST of the sale to the
     * transaction host.
     */
    function Criar(merchantOrderId: string, descricao: string, valor: int, parcelas: int, capturaAutomatica: bool,
                   numero: string, nomeImpresso: string, validade: string, cvv: string): (r: Criacao)
      ensures r.Recusada? ==> r.erro in [MsgIdentificadorLongo, MsgDescricaoLonga, MsgValidade, MsgValorZero, MsgBandeira]
    {
      if Utf8Len(merchantOrderId) > 50 then Recusada(MsgIdentificadorLongo)
      else if Utf8Len(descricao) > 13 then Recusada(MsgDescricaoLonga)
      else if Utf8Len(validade) != 5 && Utf8Len(validade) != 7 then Recusada(MsgValidade)
      else
        var validade' := ValidadeApos(merchantOrderId, descricao, validade);
        if valor <= 0 then Recusada(MsgValorZero)
        else
          var bandeira := ObterBandeira(numero);
          if bandeira.None? || !Truthy(bandeira.value) then Recusada(MsgBandeira)
          else if bandeira.value !in BandeirasCompativeis then
            Recusada(MsgBandeira + " (" + bandeira.value + ")")
          else
            BandeirasConhecidas(numero);
            Enviada(Send("POST", "/1/sales/",
                         Some(Venda(merchantOrderId, nomeImpresso, capturaAutomatica, valor, parcelas,
                                    descricao, numero, validade', cvv, bandeira.value))))
    }

    /** The sale is sent exactly when every check passes. */
    lemma CriarEnviadaSse(merchantOrderId: string, descricao: string, valor: int, parcelas: int, capturaAutomatica: bool,
                          numero: string, nomeImpresso: string, validade: string, cvv: string)
      ensures Criar(merchantOrderId, descricao, valor, parcelas, capturaAutomatica, numero, nomeImpresso, validade, cvv).Enviada?
              <==> && Utf8Len(merchantOrderId) <= 50 && Utf8Len(descricao) <= 13
                   && (Utf8Len(validade) == 5 || Utf8Len(validade) == 7)
                   && valor > 0 && ObterBandeira(numero).Some?
    {
      BandeirasConhecidas(numero);
    }

    /** The checks run in order and the first one that fails decides the error. */
    lemma OrdemDasVerificacoes(merchantOrderId: string, descricao: string, valor: int, parcelas: int, capturaAutomatica: bool,
                               numero: string, nomeImpresso: string, validade: string, cvv: string)
      ensures var r := Criar(merchantOrderId, descricao, valor, parcelas, capturaAutomatica, numero, nomeImpresso, validade, cvv);
              var idOk, descOk := Utf8Len(merchantOrderId) <= 50, Utf8Len(descricao) <= 13;
              var valOk := Utf8Len(validade) == 5 || Utf8Len(validade) == 7;
              && (!idOk ==> r == Recusada(MsgIdentificadorLongo))
              && (idOk && !descOk ==> r == Recusada(MsgDescricaoLonga))
              && (idOk && descOk && !valOk ==> r == Recusada(MsgValidade))
              && (idOk && descOk && valOk && valor <= 0 ==> r == Recusada(MsgValorZero))
              && (idOk && descOk && valOk && valor > 0 && ObterBandeira(numero).None? ==> r == Recusada(MsgBandeira))
    {
    }

    /**
     * A sale that is sent is a POST to the transaction host carrying the
     * caller's data, the brand found and the rewritten seven-byte expiry.
     */
    lemma CriarEnviadaConteudo(merchantOrderId: string, descricao: string, valor: int, parcelas: int, capturaAutomatica: bool,
                               numero: string, nomeImpresso: string, validade: string, cvv: string)
      requires Criar(merchantOrderId, descricao, valor, parcelas, capturaAutomatica, numero, nomeImpresso, validade, cvv).Enviada?
      ensures var c := Criar(merchantOrderId, descricao, valor, parcelas, capturaAutomatica, numero, nomeImpresso, validade, cvv).chamada;
              && c.metodo == "POST" && c.url == baseUrlTransacoes + "/1/sales/" && c.cabecalhos == Cabecalhos()
              && c.corpo.Some?
              && c.corpo.value.merchantOrderId == merchantOrderId && c.corpo.value.softDescriptor == descricao
              && c.corpo.value.valor == valor && c.corpo.value.parcelas == parcelas
              && c.corpo.value.captura == capturaAutomatica
              && c.corpo.value.numero == numero && c.corpo.value.nomeImpresso == nomeImpresso && c.corpo.value.cvv == cvv
              && c.corpo.value.validade == ValidadeApos(merchantOrderId, descricao, validade)
              && Utf8Len(c.corpo.value.validade) == 7
              && ObterBandeira(numero) == Some(c.corpo.value.bandeira)
    {
      BandeirasConhecidas(numero);
      var c := Send("POST", "/1/sales/", None);
      assert c.url[..|baseUrlTransacoes|] + c.url[|baseUrlTransacoes|..] == c.url;
    }

    /** A five-byte expiry is rewritten even when the amount is then refused. */
    lemma ReescritaSobreviveAoValorZero(merchantOrderId: string, descricao: string, parcelas: int, capturaAutomatica: bool,
                                        numero: string, nomeImpresso: string, validade: string, cvv: string)
      requires Utf8Len(merchantOrderId) <= 50 && Utf8Len(descricao) <= 13 && Utf8Len(validade) == 5
      ensures Criar(merchantOrderId, descricao, 0, parcelas, capturaAutomatica, numero, nomeImpresso, validade, cvv)
              == Recusada(MsgValorZero)
      ensures ValidadeApos(merchantOrderId, descricao, validade) == NormalizarValidade(validade)
    {
    }

    /** The three lookups go to the query host and the voids, the capture and the sale do not. */
    lemma HostsDasOperacoes(id: string, valor: int)
      requires Valid()
      ensures StartsWith(ConsultaPorPaymentId(id).url, baseUrlConsultas)
      ensures StartsWith(ConsultaPorTId(id).url, baseUrlConsultas)
      ensures StartsWith(ConsultaPorMerchantOrderId(id).url, baseUrlConsultas)
      ensures !StartsWith(CancelamentoTotalPorMerchantOrderId(id, valor).url, baseUrlConsultas)
      ensures !StartsWith(CancelamentoTotalPorPaymentId(id, valor).url, baseUrlConsultas)
      ensures !StartsWith(CancelamentoParcial(id, valor).url, baseUrlConsultas)
      ensures !StartsWith(CapturaTransacao(id).url, baseUrlConsultas)
      ensures !StartsWith(Send("POST", "/1/sales/", None).url, baseUrlConsultas)
    {
      var _ := Send("GET", "/1/sales/" + id, None, true);
      var _ := Send("GET", "/1/sales/acquirerTid/" + id, None, true);
      var _ := Send("GET", "/1/sales?merchantOrderId=" + id, None, true);
      var _ := Send("PUT", "/1/sales/OrderId/" + id + "/void?amount=" + IntToString(valor));
      var _ := Send("PUT", "/1/sales/" + id + "/void?amount=" + IntToString(valor));
      var _ := Send("PUT", "/1/sales/" + id + "/capture");
    }

    /** definirCartao: stores the card data for the next transaction. */
    method DefinirCartao(numero: string, nomeImpresso: string, validade: string, cvv: string)
      modifies this
      ensures cartaoNumero == numero && cartaoNomeImpresso == nomeImpresso
      ensures cartaoValidade == validade && cartaoCvv == cvv
    {
      cartaoNumero := numero;
      cartaoNomeImpresso := nomeImpresso;
      cartaoValidade := validade;
      cartaoCvv := cvv;
    }

    /**
     * criarTransacaoCredito, step by step: the expiry is rewritten in the
     * instance before the amount is checked, so the rewrite stays when a
     * later check fails.
     */
    method CriarTransacaoCredito(merchantOrderId: string, descricao: string, valor: int,
                                 parcelas: int := 1, capturaAutomatica: bool := true)
      returns (r: Criacao)
      modifies this`cartaoValidade
      ensures cartaoValidade == ValidadeApos(merchantOrderId, descricao, old(cartaoValidade))
      ensures r == Criar(merchantOrderId, descricao, valor, parcelas, capturaAutomatica,
                         cartaoNumero, cartaoNomeImpresso, old(cartaoValidade), cartaoCvv)
    {
      if Utf8Len(merchantOrderId) > 50 {
        r := Recusada(MsgIdentificadorLongo);
      } else if Utf8Len(descricao) > 13 {
        r := Recusada(MsgDescricaoLonga);
      } else if Utf8Len(cartaoValidade) != 5 && Utf8Len(cartaoValidade) != 7 {
        r := Recusada(MsgValidade);
      } else {
        if Utf8Len(cartaoValidade) == 5 {
          cartaoValidade := Inicio(cartaoValidade, 3) + "20" + Resto(cartaoValidade, 3);
        }
        if valor <= 0 {
          r := Recusada(MsgValorZero);
        } else {
          var bandeira := ObterBandeira(cartaoNumero);
          if bandeira.None? || !Truthy(bandeira.value) {
            r := Recusada(MsgBandeira);
          } else {
            var b := bandeira.value;
            if b !in BandeirasCompativeis {
              r := Recusada(MsgBandeira + " (" + b + ")");
            } else {
              r := Enviada(Send("POST", "/1/sales/",
                                Some(Venda(merchantOrderId, cartaoNomeImpresso, capturaAutomatica, valor, parcelas,
                                           descricao, cartaoNumero, cartaoValidade, cartaoCvv, b))));
            }
          }
        }
      }
    }

    /** estimarValorDasParcelas: fills an array with the base value and adds the leftover cents from the front. */
    static method EstimarValorDasParcelas(valorTotal: int, numParcelas: int) returns (parcelas: seq<int>)
      requires numParcelas >= 1
      ensures parcelas == Parcelas(valorTotal, numParcelas)
    {
      var valorParcelaNormal := valorTotal / numParcelas;
      var resto := PhpMod(valorTotal, numParcelas);
      var a := new int[numParcelas](_ => valorParcelaNormal);
      if resto > 0 {
        for i := 0 to resto
          invariant forall j :: 0 <= j < numParcelas ==> a[j] == valorParcelaNormal + (if j < i then 1 else 0)
        {
          a[i] := a[i] + 1;
        }
      }
      parcelas := a[..];
    }
  }

  /** Every brand obterBandeira names is accepted, so the allow-list rejection cannot happen. */
  lemma BandeirasConhecidas(numero: string)
    ensures ObterBandeira(numero).Some? ==>
              ObterBandeira(numero).value in BandeirasCompativeis && Truthy(ObterBandeira(numero).value)
  {
  }
}

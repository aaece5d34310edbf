# I2brLibrary core in Dafny

This project models the core of I2brLibrary, a PHP helper library for the
Conselho.NET real-estate broker registry (CRECI). It covers:

- **Cielo e-commerce client** (`Cielo`, `CieloBandeira`): the choice of
  production or sandbox hosts; the request each operation builds (lookups,
  voids, capture, credit sale); the local checks that run before a credit sale
  is sent, in their order and with their messages; the card-brand detection by
  six regular expressions; and the installment estimate, as an in-place array
  fill.
- **HTTP wrappers**:
  - the abstract `ClienteHttp` (`Http`). It covers how the URL, headers and
    body of a request are built, and how curl's outcome becomes a
    `RespostaHttp`, including when a remote `mensagem` replaces the error.
  - the response record `RespostaHttp` (`Resposta`) and its JSON test.
  - `ClienteApiV3` (`ApiV3`) and its one query, `consultarCobrancas`.
- **Registry helpers**:
  - `CnetHelper` (`CnetHelper`): the label tables for registration status,
    phone type and training.
  - `CreciHelper` (`CreciHelper`): the region table, and the conversions from
    region number to state code and back.
- **Card utilities** (`CartaoUtilidades`): the installment limits.

`Common` holds the shared PHP semantics:

- `null` as `Option`, and PHP string truthiness;
- `strlen` as the UTF-8 byte length;
- ASCII digits, and the decimal rendering of ints.

Modelling conventions:

- Amounts are integer cents.
- Strings are sequences of Unicode code points. Any byte length the source
  tests is computed with `Utf8Len`.
- The outcome of a curl transfer is an input value (`Http.Transporte`).

## Model

| member | source | states |
|---|---|---|
| Resposta.RespostaHttp.IsJson | src/Api/RespostaHttp.php:33-36 | true exactly when a content type is present and begins with application/json |
| Resposta.RespostaHttp.EhJson | src/Api/RespostaHttp.php:38-41 | the same test as isJson: a content type is present and begins with application/json |
| Resposta.RespostaHttp.GetJson | src/Api/RespostaHttp.php:43-47 | null when the content type is not JSON, otherwise the decoding of the stored body |
| Resposta.RespostaHttp.ObterJson | src/Api/RespostaHttp.php:49-52 | the same value as getJson; a non-null result implies a JSON content type |
| Resposta.ConstructorDefaults | src/Api/RespostaHttp.php:24-31 | a response built from the URL alone has null error, code, type and body, and is not JSON |
| Resposta.IsJsonTypeExamples | src/Api/RespostaHttp.php:33-36 | a JSON type with a charset suffix is accepted; text/html, a 15-character prefix and null are not |
| Resposta.IsJsonTypeIsPrefix | src/Api/RespostaHttp.php:33-36 | the JSON test holds exactly for strings that start with application/json (the truthiness test adds nothing) |
| Http.NormalizeEndpoint | src/Api/ClienteHttp.php:19 | the endpoint starts with '/', is either unchanged or prefixed by one '/', and is unchanged when it already starts with '/' |
| Http.NormalizeEndpointIdempotent | src/Api/ClienteHttp.php:19 | normalising twice is the same as normalising once |
| Http.Headers | src/Api/ClienteHttp.php:22-23 | Cache-Control comes first; the JSON content type is present exactly for POST, PUT and PATCH |
| Http.Request | src/Api/ClienteHttp.php:17-42 | the URL is the base URL followed by the normalised endpoint; method and headers as given; the body is passed only for POST, PUT and PATCH |
| Http.TransportError | src/Api/ClienteHttp.php:47 | the error is null, or curl's message when that message is non-empty; an empty message gives null |
| Http.Promotes | src/Api/ClienteHttp.php:53-56 | a promotion needs no transport error, status 400 or more, a JSON content type and a non-empty mensagem |
| Http.Result | src/Api/ClienteHttp.php:45-58 | a transport error wins and hides code and type; otherwise the error is set exactly when the remote message is promoted, and is then that message |
| Http.SendTo | src/Api/ClienteHttp.php:17-59 | the step-by-step send produces the request of Request and the response of Result |
| Http.NoPromotionOutsideJsonErrors | src/Api/ClienteHttp.php:53-56 | with no transport error, a status below 400 or a non-JSON type always gives a null error |
| Http.PromotionExample | src/Api/ClienteHttp.php:53-58 | a 422 JSON reply carrying a mensagem reports it as the error and keeps the status and the body |
| Http.ClienteHttp.constructor | src/Api/ClienteHttp.php:8 | the base URL defaults to http://exemplo.com.br |
| Http.ClienteHttp.Send | src/Api/ClienteHttp.php:17-59 | send on the instance's base URL builds Request and returns Result |
| ApiV3.ClienteApiV3.Send | src/Api/ClienteApiV3.php:17-53 | the same rules as ClienteHttp's send, on the fixed base URL https://api.conselho.net.br/v3 |
| ApiV3.ClienteApiV3.ConsultarCobrancas | src/Api/ClienteApiV3.php:61-64 | a GET with no body and only the Cache-Control header, to the endpoint built from region and CPF/CNPJ |
| ApiV3.ConsultarCobrancasEndpoint | src/Api/ClienteApiV3.php:63 | the endpoint starts with the consultar-cobrancas path and ends with the document |
| ApiV3.RegionEndsAtAmpersand | src/Api/ClienteApiV3.php:63 | within the query endpoint the digits of the region run up to the first '&' |
| ApiV3.ConsultarCobrancasEndpointInjective | src/Api/ClienteApiV3.php:61-64 | different (region, document) pairs never give the same endpoint |
| CartaoUtilidades.CalcularLimiteParcelas | src/Cnet/Financeiro/CartaoUtilidades.php:13-17 | 5 exactly for the revenue types 22, 26 and 30, and 3 for every other |
| CartaoUtilidades.CalcularLimiteParcelasNoCombo | src/Cnet/Financeiro/CartaoUtilidades.php:25-29 | 12 exactly for the revenue types 22, 26 and 30, and 3 otherwise; never below the single-charge limit |
| CartaoUtilidades.CalcularLimiteParcelasComValorMinimo | src/Cnet/Financeiro/CartaoUtilidades.php:39-42 | the count respects the maximum and the minimum installment value |
| CartaoUtilidades.ComValorMinimoIsLargest | src/Cnet/Financeiro/CartaoUtilidades.php:39-42 | every count respecting both limits is at most the result, so the result is the largest such count |
| CartaoUtilidades.ComValorMinimoExamples | src/Cnet/Financeiro/CartaoUtilidades.php:39-42 | 100.00 at a 30.00 minimum allows 3 installments, 2 under a maximum of 2, and 0 for a zero total |
| CnetHelper.FilterById | src/CnetHelper.php:35-38 | the filtered rows all carry the id and come from the table |
| CnetHelper.ToStringSituacaoCadastral | src/CnetHelper.php:33-40 | the label is a text of the table or the undefined-status label |
| CnetHelper.FilterConsecutive | src/CnetHelper.php:35-38 | on a table with consecutive ids the filter finds exactly the row of an id in range and nothing outside it |
| CnetHelper.SituacoesAreConsecutive | src/CnetHelper.php:13-26 | the status table has 12 rows with ids 1 to 12 in order |
| CnetHelper.SituacaoCadastralLookup | src/CnetHelper.php:33-40 | ids 1 to 12 give their row's text, and every other id gives the undefined label |
| CnetHelper.SituacaoLabelsAreDefined | src/CnetHelper.php:13-40 | every known status has a non-empty label different from the undefined label |
| CnetHelper.TextDiffersFromIndefinida | src/CnetHelper.php:13-26 | no text of the table is empty or equal to the undefined label |
| CnetHelper.SituacaoExamples | src/CnetHelper.php:33-40 | 1 is ATIVO, 12 is ARQUIVADO, and 0 and 13 are undefined |
| CnetHelper.ToStringTelefoneTipo | src/CnetHelper.php:47-55 | a non-empty label exactly for the ints 1 to 5 |
| CnetHelper.ToStringFormacao | src/CnetHelper.php:62-85 | a non-empty label exactly for the codes 1 to 9 |
| CnetHelper.LabelsAreDistinct | src/CnetHelper.php:47-85 | distinct known codes get distinct labels, in both lookups |
| CreciHelper.UpperChar | src/CreciHelper.php:51 | upper-casing a character keeps its UTF-8 byte count |
| CreciHelper.LowerChar | src/CreciHelper.php:51 | lower-casing a character keeps its UTF-8 byte count |
| CreciHelper.Upper | src/CreciHelper.php:51 | mb_strtoupper keeps the length and maps each character |
| CreciHelper.Lower | src/CreciHelper.php:51 | mb_strtolower keeps the length and maps each character |
| CreciHelper.CaseLaws | src/CreciHelper.php:51-62 | upper-casing is idempotent and undoes a lower-casing, and conversely |
| CreciHelper.CasePreservesUtf8Len | src/CreciHelper.php:61-62 | case conversion never changes the byte length that strlen measures |
| CreciHelper.ExampleAccentedLetters | src/CreciHelper.php:51 | Latin-1 letters change case; the multiplication and division signs do not |
| CreciHelper.Buscar | src/CreciHelper.php:49-50 | null exactly when no entry has the key; otherwise the first entry with it |
| CreciHelper.ProcurarUf | src/CreciHelper.php:63-66 | null exactly when no entry has the code; otherwise the key of the first entry with it |
| CreciHelper.IdParaUf | src/CreciHelper.php:47-52 | null exactly for an unknown region; the result is in upper case with the upper flag and in lower case without it |
| CreciHelper.UfParaId | src/CreciHelper.php:59-67 | null unless the input is two bytes long; a result is the key of an entry whose code is the input upper-cased |
| CreciHelper.RegionaisIds | src/CreciHelper.php:10-38 | the table has 27 entries keyed 0 to 9 and 11 to 27, in that order |
| CreciHelper.RegionaisCodes | src/CreciHelper.php:10-38 | every state code is two upper-case ASCII letters |
| CreciHelper.RegionaisCodesDistinct | src/CreciHelper.php:10-38 | no two regions share a state code |
| CreciHelper.BuscarKeyed | src/CreciHelper.php:49-50 | on a table keyed like the region table, isset holds exactly for 0 to 27 other than 10, and finds the entry at its own position |
| CreciHelper.IdParaUfDefined | src/CreciHelper.php:47-52 | idParaUf is defined exactly for 0 to 27 other than 10, and gives the case-converted code or name of that entry |
| CreciHelper.ProcurarUfFindsUnique | src/CreciHelper.php:63-66 | when codes are distinct, looking up an entry's code finds that entry's key |
| CreciHelper.FoundInEitherCase | src/CreciHelper.php:59-67 | a table code is found whether it is given in upper or in lower case |
| CreciHelper.RoundTrip | src/CreciHelper.php:47-67 | for every known region, ufParaId(idParaUf(r)) is r, with or without upper-casing |
| CreciHelper.UfParaIdSound | src/CreciHelper.php:47-67 | a code ufParaId accepts comes back from idParaUf of the region found, in either case |
| CreciHelper.UfParaIdIgnoresCase | src/CreciHelper.php:59-67 | ufParaId gives the same answer for the input, its upper case and its lower case |
| CreciHelper.ExampleSaoPaulo | src/CreciHelper.php:13 | region 2 is "sp", or "SP" upper-cased |
| CreciHelper.ExampleExtenso | src/CreciHelper.php:36 | region 26 by name is "ACRE" upper-cased and "acre" otherwise |
| CreciHelper.ExampleUnknownRegions | src/CreciHelper.php:49 | regions 10, 28 and -1 are unknown |
| CreciHelper.ExampleUfParaId | src/CreciHelper.php:59-67 | "sp" and "Sp" give 2, and "XX" gives the test region 0 |
| CreciHelper.ExampleUfParaIdRejects | src/CreciHelper.php:59-67 | "ZZ" names no region; "S" and "SPX" have the wrong length |
| CieloBandeira.SemQuebraFinal | src/Cielo/Api.php:96-107 | what an end anchor sees: the number itself, or the number without one final newline |
| CieloBandeira.Amex | src/Cielo/Api.php:96 | a match has fifteen leading digits and starts with 3 |
| CieloBandeira.Diners | src/Cielo/Api.php:98 | a match has fourteen leading digits and starts with 3 |
| CieloBandeira.Prefixo6 | src/Cielo/Api.php:100 | the value of the first six digits lies in the hundred-thousand band of the first digit |
| CieloBandeira.Elo | src/Cielo/Api.php:100 | a match has at least six characters and starts with 4, 5 or 6 |
| CieloBandeira.Hipercard | src/Cielo/Api.php:102 | a match, through either branch of the alternation, has at least sixteen characters |
| CieloBandeira.Master | src/Cielo/Api.php:104 | a match has sixteen leading digits and starts with 5 or 2 |
| CieloBandeira.Visa | src/Cielo/Api.php:106 | a match has thirteen leading digits and starts with 4 |
| CieloBandeira.ObterBandeira | src/Cielo/Api.php:94-111 | a brand found is one of the six and its expression matches; null exactly when no expression matches |
| CieloBandeira.PrimeiraQueCasa | src/Cielo/Api.php:96-110 | no brand tried before the one returned matches the number |
| CieloBandeira.DisjuntasExcetoElo | src/Cielo/Api.php:96-107 | apart from Elo, no two brand expressions match the same number |
| CieloBandeira.SemEloBandeiraUnica | src/Cielo/Api.php:94-111 | a number that is not Elo gets the brand of any expression it matches, whatever the order |
| CieloBandeira.Comprimentos | src/Cielo/Api.php:96-107 | Amex has 15 digits, Diners 14, Master 16 and Visa 13 or 16 (one final newline aside) |
| CieloBandeira.NaoEloQuatroOnze | src/Cielo/Api.php:100 | 4111111111111111 has no Elo prefix |
| CieloBandeira.ExemploVisa | src/Cielo/Api.php:94-111 | 4111111111111111 is Visa |
| CieloBandeira.ExemploAmex | src/Cielo/Api.php:96-97 | 341111111111111 is Amex |
| CieloBandeira.ExemploAmexComQuebra | src/Cielo/Api.php:96 | a final newline does not stop the Amex expression from matching |
| CieloBandeira.NaoEloZeros | src/Cielo/Api.php:100 | sixteen zeros have no Elo prefix |
| CieloBandeira.ExemploNenhuma | src/Cielo/Api.php:94-111 | sixteen zeros have no brand |
| CieloBandeira.ExemploEloAntesDeVisa | src/Cielo/Api.php:100-107 | a Visa-shaped number with the Elo prefix 401178 is reported as Elo, because Elo is tried first |
| CieloBandeira.ExemploHipercardSufixo | src/Cielo/Api.php:102 | the Hipercard suffix branch matches whatever precedes 3841 and fifteen digits |
| Cielo.Receber | src/Cielo/Api.php:66-75 | a transport error hides code and type; the body is decoded exactly when it is non-empty and typed as JSON; false stays false |
| Cielo.Inicio | src/Cielo/Api.php:143 | substr from 0 is a prefix of the string, n characters long or the whole string when it is shorter |
| Cielo.Resto | src/Cielo/Api.php:143 | substr from n, appended to substr from 0 to n, gives back the string; it has the remaining length, or 0 |
| Cielo.NormalizarValidade | src/Cielo/Api.php:143 | "20" is inserted after the third character, adding 2 bytes and keeping the rest |
| Cielo.ValidadeApos | src/Cielo/Api.php:140-143 | the stored expiry changes exactly when the id and descriptor checks pass and it has five bytes, and then it is the rewrite; otherwise, including a seven-byte expiry, it is unchanged |
| Cielo.ValidadeIdempotente | src/Cielo/Api.php:143 | a second call with the same data leaves the expiry as the first call left it |
| Cielo.ExemploValidade | src/Cielo/Api.php:143 | 12/30 becomes 12/2030, and 12/2030 stays as it is |
| Cielo.PhpMod | src/Cielo/Api.php:268 | PHP's % lies strictly between -n and n, equals Dafny's % for a non-negative dividend, and is never positive for a negative one |
| Cielo.Parcelas | src/Cielo/Api.php:265-278 | one installment per count; its sum and shape are stated by the lemmas below |
| Cielo.SomaPrefixo | src/Cielo/Api.php:271-278 | the first k installments add up to k base values plus the extra cents among them |
| Cielo.SomaDasParcelas | src/Cielo/Api.php:262-281 | for a non-negative total the installments add up to the total |
| Cielo.SomaExataSse | src/Cielo/Api.php:262-281 | the installments add up to the total exactly when it is non-negative or divisible by the count |
| Cielo.FormaDasParcelas | src/Cielo/Api.php:271-278 | each installment is the base or one cent more; the larger ones come first, exactly at positions below the remainder |
| Cielo.ExemploParcelas | src/Cielo/Api.php:262-281 | 1700 in 3 is 567, 567, 566; in 1 it is 1700; -1700 in 3 adds up to -1701 |
| Cielo.Api.constructor | src/Cielo/Api.php:22-28 | the sandbox flag selects the sandbox host pair, otherwise the production pair; the card is unset |
| Cielo.Api.HostsDistinguished | src/Cielo/Api.php:26-27 | on a valid host pair, a URL built on one host never starts with the other |
| Cielo.Api.Cabecalhos | src/Cielo/Api.php:41-46 | the four headers: no-cache, JSON, MerchantId and MerchantKey with the instance's credentials |
| Cielo.Api.Send | src/Cielo/Api.php:38-63 | the URL is the query host plus the endpoint exactly when the query flag is set; on the valid host pairs it starts with the query host exactly then; the body is sent only with POST, PUT and PATCH |
| Cielo.Api.ConsultaPorPaymentId | src/Cielo/Api.php:178-181 | a GET, with no body, to the query host's /1/sales/{PaymentId} |
| Cielo.Api.ConsultaPorTId | src/Cielo/Api.php:188-191 | a GET, with no body, to the query host's /1/sales/acquirerTid/{TId} |
| Cielo.Api.ConsultaPorMerchantOrderId | src/Cielo/Api.php:198-201 | a GET, with no body, to the query host's /1/sales?merchantOrderId={id} |
| Cielo.Api.CancelamentoTotalPorMerchantOrderId | src/Cielo/Api.php:211-214 | a PUT to the transaction host's /1/sales/OrderId/{id}/void?amount={valor}, with no body |
| Cielo.Api.CancelamentoTotalPorPaymentId | src/Cielo/Api.php:224-227 | a PUT to the transaction host's /1/sales/{PaymentId}/void?amount={valor}, with no body |
| Cielo.Api.CancelamentoParcial | src/Cielo/Api.php:236-239 | the partial void is the same request as the total void by PaymentId |
| Cielo.Api.CapturaTransacao | src/Cielo/Api.php:251-254 | a PUT to the transaction host's /1/sales/{PaymentId}/capture, with no body |
| Cielo.Api.Criar | src/Cielo/Api.php:138-171 | a refusal always carries one of the five messages of the checks |
| Cielo.Api.CriarEnviadaSse | src/Cielo/Api.php:140-151 | the sale is sent exactly when the id has at most 50 bytes, the descriptor at most 13, the expiry 5 or 7, the amount is positive and a brand is found |
| Cielo.Api.OrdemDasVerificacoes | src/Cielo/Api.php:140-147 | the checks run in the source's order, and the first one that fails decides the message |
| Cielo.Api.CriarEnviadaConteudo | src/Cielo/Api.php:151-170 | a sale that is sent is a POST to the transaction host with the standard headers, the caller's fields, the brand found and a seven-byte expiry |
| Cielo.Api.ReescritaSobreviveAoValorZero | src/Cielo/Api.php:142-144 | a five-byte expiry is rewritten even though a zero amount is then refused |
| Cielo.Api.HostsDasOperacoes | src/Cielo/Api.php:178-254 | the three lookups go to the query host; the voids, the capture and the sale never do |
| Cielo.Api.DefinirCartao | src/Cielo/Api.php:121-127 | the four card fields hold the given values |
| Cielo.Api.CriarTransacaoCredito | src/Cielo/Api.php:138-171 | only the stored expiry changes, and it changes to ValidadeApos; the result is Criar on the card data held before the call |
| Cielo.Api.EstimarValorDasParcelas | src/Cielo/Api.php:262-281 | the array filled in place equals Parcelas, whose sum and shape the lemmas above prove |
| Cielo.BandeirasConhecidas | src/Cielo/Api.php:146-149 | every brand obterBandeira reports is truthy and in the accepted list, so the parenthesised rejection cannot occur |

## Left out

- **curl transfers.** Timeouts, redirects and TLS options are not modelled.
  The transfer's result (`curl_error`, status, content type, body) is an
  input, `Http.Transporte`.
- **JSON.** `json_encode` of the sale is represented by the `Cielo.Venda`
  record. `json_decode` is a parameter of `GetJson`, or is just a marker
  (`Cielo.Corpo.Json`). The `mensagem` member of an error body is an input of
  `Http.Result`. The `associative` flag of getJson is folded into that
  parameter.
- **Floats.** estimarValorDasParcelas and calcularLimiteParcelas_comValorMinimo
  compute with PHP floats. The model uses exact integer arithmetic, which
  agrees with them on integer cents.
- **CartaoUtilidades.CalcularLimiteParcelasComValorMinimo** requires a
  positive minimum installment value. In the source a zero minimum is a
  division by zero. A negative minimum returns the smaller of the maximum and
  a floor quotient, which is zero or negative for a positive total. Neither
  case is modelled.
- **Cielo.Api.EstimarValorDasParcelas** requires at least one installment. In
  PHP a zero count throws a division error. For a negative count the source
  returns something that is not an installment list.
- **Cielo.SomaExataSse:** the source does not handle negative totals. The model
  states what happens to them, namely the installments do not add up to the
  total.
- **Cielo.Inicio, Cielo.Resto.** They cut characters, while PHP's `substr` cuts
  bytes. The two agree on ASCII expiry dates. A multibyte character among the
  first three of the expiry is not modelled byte by byte.
- **CreciHelper.Upper, CreciHelper.Lower.** `mb_strtoupper` and
  `mb_strtolower` are modelled on ASCII and the Latin-1 letters. Other letters
  stay unchanged here. That includes 'ÿ', 'µ' and 'ß', whose full case mappings
  do not stay within Latin-1.
- **Regular expressions.** `preg_match` is not modelled as an engine. Each
  brand expression of obterBandeira is written out as a predicate on the
  digits. The predicates follow the anchoring as written.
- **PHP loose typing.** Region numbers, status ids and type codes are ints.
  Strings or floats passed where the source compares with `==` or uses them as
  array keys are not modelled.
- **Card fields before definirCartao.** They start as "" rather than null. Both
  have length 0 for `strlen` and no brand.
- **Remote functions.** The CnetHelper functions that fetch photos, signatures
  and corrected debts over HTTP (src/CnetHelper.php:93-168) are not modelled.
  They consist only of remote calls.
- **Excluded files.** FinanceiroUtilidades.php and ClienteLx4.php are not part
  of this model.

/**
 * CnetHelper: the label tables of the Conselho.NET registry. The functions
 * that fetch photos, signatures and corrected debts over HTTP are not part
 * of this model.
 */
module CnetHelper {

  /** One row of $SITUACOES_CADASTRAIS. */
  datatype SituacaoCadastral = SituacaoCadastral(id: int, color: string, text: string)

  const SituacoesCadastrais: seq<SituacaoCadastral> := [
    SituacaoCadastral(1, "#008000", "ATIVO"),
    SituacaoCadastral(2, "#FF0000", "CANCELADO"),
    SituacaoCadastral(3, "#FF0000", "CANCELADO PUNITIVAMENTE"),
    SituacaoCadastral(4, "#FF0000", "CANCELADO POR DÉBITO"),
    SituacaoCadastral(5, "#FF0000", "SUSPENSO"),
    SituacaoCadastral(6, "#FF0000", "SUSPENSO PUNITIVAMENTE"),
    SituacaoCadastral(7, "#0000FF", "TRANSFERIDO"),
    SituacaoCadastral(8, "#FF0000", "FALECIDO"),
    SituacaoCadastral(9, "#FF0000", "CANCELADO A PEDIDO R.T."),
    SituacaoCadastral(10, "#FF0000", "SUSPENSO POR DÉBITO"),
    SituacaoCadastral(11, "#FF0000", "CANCELADO POR ATO ADMINISTRATIVO"),
    SituacaoCadastral(12, "#FF0000", "ARQUIVADO")
  ]

  const SituacaoIndefinida := "SITUAÇÃO CADASTRAL INDEFINIDA"

  /** array_filter followed by array_values: the rows with the given id, in table order. */
  function FilterById(table: seq<SituacaoCadastral>, id: int): (r: seq<SituacaoCadastral>)
    ensures |r| <= |table|
    ensures forall i :: 0 <= i < |r| ==> r[i].id == id && r[i] in table
  {
    if |table| == 0 then []
    else (if table[0].id == id then [table[0]] else []) + FilterById(table[1..], id)
  }

  function Texts(table: seq<SituacaoCadastral>): (r: seq<string>)
    ensures |r| == |table| && forall i :: 0 <= i < |table| ==> r[i] == table[i].text
  {
    seq(|table|, i requires 0 <= i < |table| => table[i].text)
  }

  /** The label of a registration status: the text of the first row with that id. */
  function ToStringSituacaoCadastral(situacao: int): (r: string)
    ensures r == SituacaoIndefinida || r in Texts(SituacoesCadastrais)
  {
    var x := FilterById(SituacoesCadastrais, situacao);
    if |x| > 0 then x[0].text else SituacaoIndefinida
  }

  /** The rows carry the ids first, first + 1, ... in order. */
  predicate ConsecutiveIds(table: seq<SituacaoCadastral>, first: int) {
    forall i :: 0 <= i < |table| ==> table[i].id == first + i
  }

  /** On a table with consecutive ids, the filter finds exactly one row for an id in range and none outside it. */
  lemma {:induction false} FilterConsecutive(table: seq<SituacaoCadastral>, first: int, id: int)
    requires ConsecutiveIds(table, first)
    ensures first <= id < first + |table| ==> FilterById(table, id) == [table[id - first]]
    ensures !(first <= id < first + |table|) ==> FilterById(table, id) == []
  {
    if |table| > 0 {
      assert ConsecutiveIds(table[1..], first + 1) by {
        forall i | 0 <= i < |table[1..]| ensures table[1..][i].id == first + 1 + i {
          assert table[1..][i] == table[i + 1];
        }
      }
      FilterConsecutive(table[1..], first + 1, id);
      if id != first {
        assert FilterById(table, id) == FilterById(table[1..], id);
      } else {
        assert FilterById(table[1..], id) == [];
      }
    }
  }

  lemma SituacoesAreConsecutive()
    ensures |SituacoesCadastrais| == 12 && ConsecutiveIds(SituacoesCadastrais, 1)
  {
  }

  /** Ids 1 to 12 give their row's text; every other id gives the undefined label. */
  lemma SituacaoCadastralLookup(situacao: int)
    ensures 1 <= situacao <= 12 ==> ToStringSituacaoCadastral(situacao) == SituacoesCadastrais[situacao - 1].text
    ensures !(1 <= situacao <= 12) ==> ToStringSituacaoCadastral(situacao) == SituacaoIndefinida
  {
    SituacoesAreConsecutive();
    FilterConsecutive(SituacoesCadastrais, 1, situacao);
  }

  /** Every known status has a non-empty label that differs from the undefined one. */
  lemma SituacaoLabelsAreDefined(situacao: int)
    requires 1 <= situacao <= 12
    ensures ToStringSituacaoCadastral(situacao) != "" && ToStringSituacaoCadastral(situacao) != SituacaoIndefinida
  {
    SituacaoCadastralLookup(situacao);
    TextDiffersFromIndefinida(SituacoesCadastrais[situacao - 1].text);
  }

  /** A label taken from the table is never empty and never the undefined label. */
  lemma TextDiffersFromIndefinida(t: string)
    requires t in Texts(SituacoesCadastrais)
    ensures t != "" && t != SituacaoIndefinida
  {
    // every table text differs from "SITUAÇÃO ..." in its second character
    assert forall i :: 0 <= i < |SituacoesCadastrais| ==>
             |SituacoesCadastrais[i].text| > 1 && SituacoesCadastrais[i].text[1] != 'I';
    assert SituacaoIndefinida[1] == 'I';
  }

  lemma SituacaoExamples()
    ensures ToStringSituacaoCadastral(1) == "ATIVO"
    ensures ToStringSituacaoCadastral(12) == "ARQUIVADO"
    ensures ToStringSituacaoCadastral(0) == SituacaoIndefinida
    ensures ToStringSituacaoCadastral(13) == SituacaoIndefinida
  {
    SituacaoCadastralLookup(1);
    SituacaoCadastralLookup(12);
    SituacaoCadastralLookup(0);
    SituacaoCadastralLookup(13);
  }

  /** The label of a phone type; the source compares with `===`, so only the ints 1 to 5 are known. */
  function ToStringTelefoneTipo(tipo: int): (r: string)
    ensures r != "" <==> 1 <= tipo <= 5
  {
    if tipo == 1 then "Residencial"
    else if tipo == 2 then "Comercial"
    else if tipo == 3 then "Fax Residencial"
    else if tipo == 4 then "Fax Comercial"
    else if tipo == 5 then "Celular"
    else ""
  }

  /** The label of a training course (`idEscolaHabilitacao`). */
  function ToStringFormacao(idHabilitacao: int): (r: string)
    ensures r != "" <==> 1 <= idHabilitacao <= 9
  {
    match idHabilitacao
    case 1 => "CIÊNCIAS IMOBILIÁRIAS"
    case 2 => "CORRETOR DE IMÓVEIS"
    case 3 => "GESTÃO DE NEGÓCIOS IMOBILIÁRIOS"
    case 4 => "SUPERIOR DE FORMAÇÃO ESP CIÊNCIAS IMOBILIÁRIAS"
    case 5 => "TÉCNICO EM TRANSAÇÕES IMOBILIÁRIAS"
    case 6 => "TECNÓLOGO EM TRANSAÇÕES IMOBILIÁRIAS"
    case 7 => "SUPERIOR DE FORMAÇÃO ESP GESTÃO IMOBILIÁRIA"
    case 8 => "GESTÃO IMOBILIÁRIA"
    case 9 => "SUPERIOR DE TECNOLOGIA EM NEGÓCIOS IMOBILIÁRIOS"
    case _ => ""
  }

  /** Distinct known codes get distinct labels, in both lookups. */
  lemma LabelsAreDistinct(a: int, b: int)
    ensures 1 <= a <= 5 && 1 <= b <= 5 && a != b ==> ToStringTelefoneTipo(a) != ToStringTelefoneTipo(b)
    ensures 1 <= a <= 9 && 1 <= b <= 9 && a != b ==> ToStringFormacao(a) != ToStringFormacao(b)
  {
  }
}

/**
 * CreciHelper: the table of the regional councils (CRECI) and the two
 * conversions between a region number and its state code.
 */
module CreciHelper {
  import opened Common

  /** One entry of $regionais: the region number (the array key), the state code and the state's name. */
  datatype Regional = Regional(id: int, uf: string, extenso: string)

  /** The table in the order of its keys; there is no region 10. */
  const Regionais: seq<Regional> := [
    Regional(0, "XX", "Homologacao"),
    Regional(1, "RJ", "Rio de Janeiro"),
    Regional(2, "SP", "São Paulo"),
    Regional(3, "RS", "Rio Grande do Sul"),
    Regional(4, "MG", "Minas Gerais"),
    Regional(5, "GO", "Goiás"),
    Regional(6, "PR", "Paraná"),
    Regional(7, "PE", "Pernambuco"),
    Regional(8, "DF", "Distrito Federal"),
    Regional(9, "BA", "Bahia"),
    Regional(11, "SC", "Santa Catarina"),
    Regional(12, "PA", "Pará & Amapá"),
    Regional(13, "ES", "Espírito Santo"),
    Regional(14, "MS", "Mato Grosso do Sul"),
    Regional(15, "CE", "Ceará"),
    Regional(16, "SE", "Sergipe"),
    Regional(17, "RN", "Rio Grande do Norte"),
    Regional(18, "AM", "Amazonas & Roraima"),
    Regional(19, "MT", "Mato Grosso"),
    Regional(20, "MA", "Maranhão"),
    Regional(21, "PB", "Paraíba"),
    Regional(22, "AL", "Alagoas"),
    Regional(23, "PI", "Piauí"),
    Regional(24, "RO", "Rondônia"),
    Regional(25, "TO", "Tocantins"),
    Regional(26, "AC", "Acre"),
    Regional(27, "RR", "Roraima")
  ]

  // ---------------------------------------------------------------------------
  // Case conversion (mb_strtoupper / mb_strtolower) on ASCII and Latin-1 letters
  // ---------------------------------------------------------------------------

  function UpperChar(c: char): (u: char)
    ensures CharBytes(u) == CharBytes(c)
  {
    if 'a' <= c <= 'z' || ('à' <= c <= 'þ' && c != '÷') then (c as int - 32) as char else c
  }

  function LowerChar(c: char): (l: char)
    ensures CharBytes(l) == CharBytes(c)
  {
    if 'A' <= c <= 'Z' || ('À' <= c <= 'Þ' && c != '×') then (c as int + 32) as char else c
  }

  function Upper(s: string): (r: string)
    ensures |r| == |s| && forall i :: 0 <= i < |s| ==> r[i] == UpperChar(s[i])
  {
    if |s| == 0 then "" else [UpperChar(s[0])] + Upper(s[1..])
  }

  function Lower(s: string): (r: string)
    ensures |r| == |s| && forall i :: 0 <= i < |s| ==> r[i] == LowerChar(s[i])
  {
    if |s| == 0 then "" else [LowerChar(s[0])] + Lower(s[1..])
  }

  /** Upper-casing is idempotent and ignores a previous lower-casing; and the other way round. */
  lemma CaseLaws(s: string)
    ensures Upper(Upper(s)) == Upper(s) && Upper(Lower(s)) == Upper(s)
    ensures Lower(Lower(s)) == Lower(s) && Lower(Upper(s)) == Lower(s)
  {
  }

  /** Changing case never changes the byte length. */
  lemma {:induction false} CasePreservesUtf8Len(s: string)
    ensures Utf8Len(Upper(s)) == Utf8Len(s) && Utf8Len(Lower(s)) == Utf8Len(s)
  {
    if |s| > 0 {
      var p := s[..|s| - 1];
      CasePreservesUtf8Len(p);
      assert Upper(s)[..|s| - 1] == Upper(p);
      assert Lower(s)[..|s| - 1] == Lower(p);
    }
  }

  /** The Latin-1 letters change case too; the division sign has no case. */
  lemma ExampleAccentedLetters()
    ensures UpperChar('ã') == 'Ã' && LowerChar('Ã') == 'ã' && UpperChar('é') == 'É'
    ensures UpperChar('÷') == '÷' && LowerChar('×') == '×' && UpperChar('1') == '1'
  {
  }

  /** A state code as the table writes it: two upper-case ASCII letters. */
  predicate IsCode(s: string) {
    |s| == 2 && forall i :: 0 <= i < 2 ==> 'A' <= s[i] <= 'Z'
  }

  // ---------------------------------------------------------------------------
  // Lookups
  // ---------------------------------------------------------------------------

  lemma TailIndices(table: seq<Regional>)
    requires |table| > 0
    ensures forall i :: 0 < i < |table| ==> table[i] == table[1..][i - 1]
  {
  }

  /** `isset($regionais[$id])` and the entry it guards: the first entry with that key. */
  function Buscar(table: seq<Regional>, id: int): (r: Option<Regional>)
    ensures r.None? <==> forall i :: 0 <= i < |table| ==> table[i].id != id
    ensures r.Some? ==> exists i :: 0 <= i < |table| && table[i] == r.value && table[i].id == id &&
                                    forall j :: 0 <= j < i ==> table[j].id != id
  {
    if |table| == 0 then None
    else if table[0].id == id then Some(table[0])
    else
      var r := Buscar(table[1..], id);
      TailIndices(table);
      r
  }

  /** The foreach of ufParaId: the key of the first entry whose code is `uf`. */
  function ProcurarUf(table: seq<Regional>, uf: string): (r: Option<int>)
    ensures r.None? <==> forall i :: 0 <= i < |table| ==> table[i].uf != uf
    ensures r.Some? ==> exists i :: 0 <= i < |table| && table[i].uf == uf && table[i].id == r.value &&
                                    forall j :: 0 <= j < i ==> table[j].uf != uf
  {
    if |table| == 0 then None
    else if table[0].uf == uf then Some(table[0].id)
    else
      var r := ProcurarUf(table[1..], uf);
      TailIndices(table);
      r
  }

  /**
   * idParaUf: the state code (or, with `extenso`, the state's name) of a
   * region, lower-cased unless `upper` is set; null for an unknown region.
   */
  function IdParaUf(regional: int, upper: bool := false, extenso: bool := false): (r: Option<string>)
    ensures r.None? <==> Buscar(Regionais, regional).None?
    ensures r.Some? && upper ==> Upper(r.value) == r.value
    ensures r.Some? && !upper ==> Lower(r.value) == r.value
  {
    var e := Buscar(Regionais, regional);
    if e.None? then None
    else
      var uf := if extenso then e.value.extenso else e.value.uf;
      CaseLaws(uf);
      Some(if upper then Upper(uf) else Lower(uf))
  }

  /**
   * ufParaId: the region whose code is `uf` in any case; null when `uf` is
   * not two bytes long or names no region.
   */
  function UfParaId(uf: string): (r: Option<int>)
    ensures Utf8Len(uf) != 2 ==> r == None
    ensures r.Some? ==> exists i :: 0 <= i < |Regionais| && Regionais[i].uf == Upper(uf) && Regionais[i].id == r.value
  {
    if Utf8Len(uf) != 2 then None else ProcurarUf(Regionais, Upper(uf))
  }

  // ---------------------------------------------------------------------------
  // Facts about the table
  // ---------------------------------------------------------------------------

  /** The keys run 0 to 9 and then 11 to 27. */
  lemma RegionaisIds()
    ensures |Regionais| == 27
    ensures forall i :: 0 <= i < |Regionais| ==> Regionais[i].id == if i < 10 then i else i + 1
  {
  }

  /** Every code is two upper-case ASCII letters. */
  lemma RegionaisCodes()
    ensures forall i :: 0 <= i < |Regionais| ==> IsCode(Regionais[i].uf)
  {
  }

  /** No two entries share a code. */
  lemma RegionaisCodesDistinct()
    ensures forall i, j :: 0 <= i < j < |Regionais| ==> Regionais[i].uf != Regionais[j].uf
  {
    forall i, j | 0 <= i < j < |Regionais| ensures Regionais[i].uf != Regionais[j].uf {
      assert Regionais[i].uf[0] != Regionais[j].uf[0] || Regionais[i].uf[1] != Regionais[j].uf[1];
    }
  }

  /** The position in the table of a known region. */
  function Posicao(regional: int): (i: nat)
    requires 0 <= regional <= 27 && regional != 10
    ensures i < |Regionais| && Regionais[i].id == regional
  {
    RegionaisIds();
    if regional < 10 then regional else regional - 1
  }

  /** A table whose keys run 0 to 9 and then 11 to 27, position by position. */
  predicate KeyedLikeRegionais(table: seq<Regional>) {
    |table| == 27 && forall i :: 0 <= i < |table| ==> table[i].id == if i < 10 then i else i + 1
  }

  /** On such a table the search finds exactly the keys 0 to 27 other than 10, each at its own position. */
  lemma BuscarKeyed(table: seq<Regional>, regional: int)
    requires KeyedLikeRegionais(table)
    ensures Buscar(table, regional).Some? <==> 0 <= regional <= 27 && regional != 10
    ensures 0 <= regional <= 27 && regional != 10 ==>
              Buscar(table, regional) == Some(table[if regional < 10 then regional else regional - 1])
  {
    if 0 <= regional <= 27 && regional != 10 {
      var k := if regional < 10 then regional else regional - 1;
      assert table[k].id == regional;
      var r := Buscar(table, regional);
      var i :| 0 <= i < |table| && table[i] == r.value && table[i].id == regional &&
               forall j :: 0 <= j < i ==> table[j].id != regional;
      assert i == k;
    } else {
      assert forall i :: 0 <= i < |table| ==> table[i].id != regional;
    }
  }

  /** Exactly the regions 0 to 27 other than 10 are known, and each gives its own entry's text. */
  lemma IdParaUfDefined(regional: int, upper: bool, extenso: bool)
    ensures IdParaUf(regional, upper, extenso).Some? <==> 0 <= regional <= 27 && regional != 10
    ensures 0 <= regional <= 27 && regional != 10 ==>
              var e := Regionais[Posicao(regional)];
              var uf := if extenso then e.extenso else e.uf;
              IdParaUf(regional, upper, extenso) == Some(if upper then Upper(uf) else Lower(uf))
  {
    RegionaisIds();
    BuscarKeyed(Regionais, regional);
  }

  /** On a table with distinct codes, the search finds each entry's code at that entry. */
  lemma ProcurarUfFindsUnique(table: seq<Regional>, k: int)
    requires forall i, j :: 0 <= i < j < |table| ==> table[i].uf != table[j].uf
    requires 0 <= k < |table|
    ensures ProcurarUf(table, table[k].uf) == Some(table[k].id)
  {
    var r := ProcurarUf(table, table[k].uf);
    var i :| 0 <= i < |table| && table[i].uf == table[k].uf && table[i].id == r.value &&
             forall j :: 0 <= j < i ==> table[j].uf != table[k].uf;
    assert i == k;
  }

  /** A state code in the table's form has two bytes and is its own upper case. */
  lemma CodeFacts(uf: string)
    requires IsCode(uf)
    ensures Utf8Len(uf) == 2 && Utf8Len(Lower(uf)) == 2
    ensures Upper(uf) == uf && Upper(Lower(uf)) == uf
  {
    assert IsAscii(uf);
    AsciiUtf8Len(uf);
    CasePreservesUtf8Len(uf);
    CaseLaws(uf);
  }

  /** The code of the entry at position k, in either case, is found at that entry. */
  lemma FoundInEitherCase(uf: string, regional: int)
    requires IsCode(uf) && ProcurarUf(Regionais, uf) == Some(regional)
    ensures UfParaId(uf) == Some(regional) && UfParaId(Lower(uf)) == Some(regional)
  {
    CodeFacts(uf);
  }

  /** The state code of a known region, in either case, leads back to the region. */
  lemma RoundTrip(regional: int)
    requires 0 <= regional <= 27 && regional != 10
    ensures IdParaUf(regional).Some? && UfParaId(IdParaUf(regional).value) == Some(regional)
    ensures IdParaUf(regional, true).Some? && UfParaId(IdParaUf(regional, true).value) == Some(regional)
  {
    var k := Posicao(regional);
    IdParaUfDefined(regional, false, false);
    IdParaUfDefined(regional, true, false);
    RegionaisCodes();
    RegionaisCodesDistinct();
    ProcurarUfFindsUnique(Regionais, k);
    var uf := Regionais[k].uf;
    CodeFacts(uf);
    FoundInEitherCase(uf, regional);
  }

  /** Each entry sits at the position its key names. */
  lemma PosicaoDaEntrada(i: int)
    requires 0 <= i < |Regionais|
    ensures 0 <= Regionais[i].id <= 27 && Regionais[i].id != 10 && Posicao(Regionais[i].id) == i
  {
    RegionaisIds();
    KeyedPosition(Regionais, i);
  }

  lemma KeyedPosition(table: seq<Regional>, i: int)
    requires KeyedLikeRegionais(table) && 0 <= i < |table|
    ensures 0 <= table[i].id <= 27 && table[i].id != 10
    ensures (if table[i].id < 10 then table[i].id else table[i].id - 1) == i
  {
  }

  /** A code that ufParaId accepts is, upper-cased, the code idParaUf gives back for that region. */
  lemma UfParaIdSound(uf: string)
    requires UfParaId(uf).Some?
    ensures IdParaUf(UfParaId(uf).value, true) == Some(Upper(uf))
    ensures IdParaUf(UfParaId(uf).value) == Some(Lower(uf))
  {
    var n := UfParaId(uf).value;
    var i :| 0 <= i < |Regionais| && Regionais[i].uf == Upper(uf) && Regionais[i].id == n;
    PosicaoDaEntrada(i);
    IdParaUfDefined(n, true, false);
    IdParaUfDefined(n, false, false);
    CaseLaws(uf);
  }

  /** ufParaId ignores case. */
  lemma UfParaIdIgnoresCase(uf: string)
    ensures UfParaId(Upper(uf)) == UfParaId(uf)
    ensures UfParaId(Lower(uf)) == UfParaId(uf)
  {
    CasePreservesUtf8Len(uf);
    CaseLaws(uf);
  }

  /** Region 2 is São Paulo: "sp" by default, "SP" upper-cased. */
  lemma ExampleSaoPaulo()
    ensures IdParaUf(2) == Some("sp") && IdParaUf(2, true) == Some("SP")
  {
    IdParaUfDefined(2, false, false);
    IdParaUfDefined(2, true, false);
    EntrySaoPaulo();
    CaseOfSP();
  }

  lemma EntrySaoPaulo()
    ensures Posicao(2) == 2 && Regionais[2].uf == "SP"
  {
  }

  lemma CaseOfSP()
    ensures Lower("SP") == "sp" && Upper("SP") == "SP"
  {
    assert Lower("SP") == [LowerChar('S'), LowerChar('P')];
    assert Upper("SP") == [UpperChar('S'), UpperChar('P')];
  }

  /** With `extenso`, the state's name is returned, case-converted: region 26 is "ACRE" or "acre". */
  lemma ExampleExtenso()
    ensures IdParaUf(26, true, true) == Some("ACRE") && IdParaUf(26, false, true) == Some("acre")
  {
    assert Upper("Acre") == "ACRE" && Lower("Acre") == "acre";
    IdParaUfDefined(26, true, true);
    IdParaUfDefined(26, false, true);
    assert Posicao(26) == 25;
  }

  lemma ExampleUnknownRegions()
    ensures IdParaUf(10) == None && IdParaUf(28) == None && IdParaUf(-1) == None
  {
    IdParaUfDefined(10, false, false);
    IdParaUfDefined(28, false, false);
    IdParaUfDefined(-1, false, false);
  }

  lemma ExampleUfParaId()
    ensures UfParaId("sp") == Some(2) && UfParaId("Sp") == Some(2) && UfParaId("XX") == Some(0)
  {
    assert Lower("Sp") == "sp";
    assert Upper("XX") == "XX";
    ExampleSaoPaulo();
    RoundTrip(2);
    UfParaIdIgnoresCase("Sp");
    RoundTrip(0);
    IdParaUfDefined(0, true, false);
    assert Posicao(0) == 0;
  }

  /** A code of the wrong length, or one that names no region, gives null. */
  lemma ExampleUfParaIdRejects()
    ensures UfParaId("ZZ") == None && UfParaId("S") == None && UfParaId("SPX") == None
  {
    RegionaisCodes();
    assert forall i :: 0 <= i < |Regionais| ==> Regionais[i].uf != "ZZ" by {
      forall i | 0 <= i < |Regionais| ensures Regionais[i].uf != "ZZ" {
        assert Regionais[i].uf[0] != 'Z';
      }
    }
    assert Upper("ZZ") == "ZZ";
  }
}

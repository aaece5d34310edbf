/**
 * The card-brand detection of the Cielo client (Api::obterBandeira): six
 * regular expressions tried in a fixed order, written here as predicates on
 * the digit string. None of the expressions has a modifier, so `^` is the
 * start of the string, `$` is the end of the string or the position before
 * a final newline, and `\d` is an ASCII digit.
 */
module CieloBandeira {
  import opened Common

  /** The text that `$` lets a pattern see: the number without one final "\n". */
  function SemQuebraFinal(s: string): (t: string)
    ensures t == s || (|s| > 0 && s[|s| - 1] == '\n' && t == s[..|s| - 1])
  {
    if |s| > 0 && s[|s| - 1] == '\n' then s[..|s| - 1] else s
  }

  /** Amex: fifteen digits beginning 34 or 37. */
  predicate Amex(s: string)
    ensures Amex(s) ==> |s| >= 15 && AllDigits(s[..15]) && s[0] == '3'
  {
    var t := SemQuebraFinal(s);
    |t| == 15 && AllDigits(t) && t[0] == '3' && (t[1] == '4' || t[1] == '7')
  }

  /** Diners: fourteen digits beginning 300 to 305, 36 or 38. */
  predicate Diners(s: string)
    ensures Diners(s) ==> |s| >= 14 && AllDigits(s[..14]) && s[0] == '3'
  {
    var t := SemQuebraFinal(s);
    |t| == 14 && AllDigits(t) && t[0] == '3' &&
    ((t[1] == '0' && '0' <= t[2] <= '5') || t[1] == '6' || t[1] == '8')
  }

  /**
   * The prefixes of the Elo expression, alternative by alternative, as
   * ranges of the first six digits. Every alternative is anchored at the
   * start only, so only the prefix is looked at.
   */
  predicate PrefixoElo(v: int) {
    || 401178 <= v <= 401179 || v == 431274 || v == 438935
    || v == 451416 || v == 457393 || 457631 <= v <= 457632
    || v == 504175 || 506699 <= v <= 506778 || 509000 <= v <= 509999
    || v == 627780 || v == 636297 || 636368 <= v <= 636369
    || 650031 <= v <= 650033 || 650035 <= v <= 650051
    || 650405 <= v <= 650439 || 650485 <= v <= 650499
    || 650500 <= v <= 650538 || 650541 <= v <= 650598
    || 650700 <= v <= 650718 || 650720 <= v <= 650727
    || 650901 <= v <= 650978
    || 651652 <= v <= 651679
    || 655000 <= v <= 655019 || 655021 <= v <= 655058
  }

  /** The number written by the first six characters. */
  function Prefixo6(s: string): (v: nat)
    requires |s| >= 6 && AllDigits(s[..6])
    ensures v < 1000000
    ensures DigitValue(s[0]) * 100000 <= v < DigitValue(s[0]) * 100000 + 100000
  {
    var p := s[..6];
    ((((DigitValue(p[0]) * 10 + DigitValue(p[1])) * 10 + DigitValue(p[2])) * 10
      + DigitValue(p[3])) * 10 + DigitValue(p[4])) * 10 + DigitValue(p[5])
  }

  /** The Elo expression: six leading digits inside one of the ranges, whatever follows. */
  predicate Elo(s: string)
    ensures Elo(s) ==> |s| >= 6 && '4' <= s[0] <= '6'
  {
    |s| >= 6 && AllDigits(s[..6]) && PrefixoElo(Prefixo6(s))
  }

  /**
   * Hipercard: the alternation splits the anchors, so the first branch asks
   * for a prefix of 606282 and ten digits (the optional three more change
   * nothing without an end anchor), and the second for a suffix of 3841 and
   * fifteen digits, whatever comes before it.
   */
  predicate Hipercard(s: string)
    ensures Hipercard(s) ==> |s| >= 16
  {
    (StartsWith(s, "606282") && |s| >= 16 && AllDigits(s[6..16])) ||
    (var t := SemQuebraFinal(s);
     |t| >= 19 && t[|t| - 19..|t| - 15] == "3841" && AllDigits(t[|t| - 15..]))
  }

  /** Master: sixteen digits beginning 51 to 55, or beginning 2221 to 2720. */
  predicate Master(s: string)
    ensures Master(s) ==> |s| >= 16 && AllDigits(s[..16]) && (s[0] == '5' || s[0] == '2')
  {
    var t := SemQuebraFinal(s);
    |t| == 16 && AllDigits(t) &&
    ((t[0] == '5' && '1' <= t[1] <= '5') || 2221 <= Prefixo4(t) <= 2720)
  }

  /** The number written by the first four digits. */
  function Prefixo4(t: string): (v: nat)
    requires |t| >= 4 && AllDigits(t[..4])
    ensures v < 10000
  {
    ((DigitValue(t[0]) * 10 + DigitValue(t[1])) * 10 + DigitValue(t[2])) * 10 + DigitValue(t[3])
  }

  /** Visa: thirteen or sixteen digits beginning 4. */
  predicate Visa(s: string)
    ensures Visa(s) ==> |s| >= 13 && AllDigits(s[..13]) && s[0] == '4'
  {
    var t := SemQuebraFinal(s);
    (|t| == 13 || |t| == 16) && AllDigits(t) && t[0] == '4'
  }

  /** The brands obterBandeira can name, in the order it tries them. */
  const Ordem: seq<string> := ["Amex", "Diners", "Elo", "Hipercard", "Master", "Visa"]

  /** Whether the expression of `bandeira` matches the number. */
  predicate Casa(bandeira: string, s: string) {
    match bandeira
    case "Amex" => Amex(s)
    case "Diners" => Diners(s)
    case "Elo" => Elo(s)
    case "Hipercard" => Hipercard(s)
    case "Master" => Master(s)
    case "Visa" => Visa(s)
    case _ => false
  }

  /** obterBandeira: the first brand whose expression matches, or null. */
  function ObterBandeira(numero: string): (r: Option<string>)
    ensures r.Some? ==> r.value in Ordem && Casa(r.value, numero)
    ensures r.None? <==> forall b :: b in Ordem ==> !Casa(b, numero)
  {
    if Amex(numero) then Some("Amex")
    else if Diners(numero) then Some("Diners")
    else if Elo(numero) then Some("Elo")
    else if Hipercard(numero) then Some("Hipercard")
    else if Master(numero) then Some("Master")
    else if Visa(numero) then Some("Visa")
    else None
  }

  /** The brand found is the first in the order that matches: no earlier brand matches. */
  lemma PrimeiraQueCasa(numero: string, i: int)
    requires ObterBandeira(numero).Some? && 0 <= i < |Ordem| && Ordem[i] == ObterBandeira(numero).value
    ensures forall j :: 0 <= j < i ==> !Casa(Ordem[j], numero)
  {
  }

  /** Apart from Elo, the expressions never match the same number, so for them the order is irrelevant. */
  lemma {:induction false} DisjuntasExcetoElo(s: string, a: string, b: string)
    requires a in Ordem && b in Ordem && a != b && a != "Elo" && b != "Elo"
    ensures !(Casa(a, s) && Casa(b, s))
  {
    var t := SemQuebraFinal(s);
    assert |t| > 0 ==> t[0] == s[0];
    assert Master(s) ==> t[0] == '5' || t[0] == '2';
  }

  /** A number that is not Elo gets the brand of any expression it matches. */
  lemma SemEloBandeiraUnica(s: string, b: string)
    requires b in Ordem && b != "Elo" && Casa(b, s) && !Elo(s)
    ensures ObterBandeira(s) == Some(b)
  {
    var r := ObterBandeira(s);
    if r != Some(b) {
      DisjuntasExcetoElo(s, r.value, b);
    }
  }

  /** The fixed lengths of the anchored brands (one final newline aside). */
  lemma Comprimentos(s: string)
    ensures Amex(s) ==> |SemQuebraFinal(s)| == 15
    ensures Diners(s) ==> |SemQuebraFinal(s)| == 14
    ensures Master(s) ==> |SemQuebraFinal(s)| == 16
    ensures Visa(s) ==> |SemQuebraFinal(s)| == 13 || |SemQuebraFinal(s)| == 16
  {
  }

  lemma NaoEloQuatroOnze()
    ensures !Elo("4111111111111111")
  {
    assert Prefixo6("4111111111111111") == 411111;
  }

  lemma ExemploVisa()
    ensures ObterBandeira("4111111111111111") == Some("Visa")
  {
    NaoEloQuatroOnze();
    assert Visa("4111111111111111");
    SemEloBandeiraUnica("4111111111111111", "Visa");
  }

  lemma ExemploAmex()
    ensures ObterBandeira("341111111111111") == Some("Amex")
  {
    assert Amex("341111111111111");
  }

  /** A trailing newline does not stop an anchored expression from matching. */
  lemma ExemploAmexComQuebra()
    ensures ObterBandeira("341111111111111\n") == Some("Amex")
  {
    assert SemQuebraFinal("341111111111111\n") == "341111111111111";
    assert Amex("341111111111111\n");
  }

  lemma NaoEloZeros()
    ensures !Elo("0000000000000000")
  {
    assert Prefixo6("0000000000000000") == 0;
  }

  lemma ExemploNenhuma()
    ensures ObterBandeira("0000000000000000") == None
  {
    var s := "0000000000000000";
    NaoEloZeros();
    assert SemQuebraFinal(s) == s;
    assert !StartsWith(s, "606282") by {
      assert s[0] != '6';
    }
  }

  /** Elo comes before Visa: a Visa-shaped number with an Elo prefix is Elo. */
  lemma ExemploEloAntesDeVisa()
    ensures Visa("4011780000000000") && ObterBandeira("4011780000000000") == Some("Elo")
  {
    var s := "4011780000000000";
    assert SemQuebraFinal(s) == s;
    assert Prefixo6(s) == 401178;
    assert !Amex(s) && !Diners(s);
  }

  /** The Hipercard suffix branch needs no particular start. */
  lemma ExemploHipercardSufixo()
    ensures Hipercard("x3841000000000000000")
  {
    var s := "x3841000000000000000";
    assert SemQuebraFinal(s) == s;
    assert s[1..5] == "3841";
  }
}

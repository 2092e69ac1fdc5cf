/**
 * Character classes of the Clausewitz lexer (src/utils.ts).
 *
 * Each predicate is a whole-string regular-expression test; the lexer applies
 * it to one-character strings.  The regular expressions are transcribed
 * literally (an anchored `*`-repetition is a universal statement about every
 * character; the number pattern is an existential choice of where the sign,
 * the dotted part and the trailing digits begin), and the lemmas below state
 * what they mean.
 */
module Utils {

  predicate IsAsciiLetter(c: char) {
    ('a' <= c <= 'z') || ('A' <= c <= 'Z')
  }

  predicate IsDigit(c: char) {
    '0' <= c <= '9'
  }

  predicate AllDigits(s: string) {
    forall i :: 0 <= i < |s| ==> IsDigit(s[i])
  }

  /** `/^[a-zA-Z_]*$/` */
  predicate IsAlphaUnderscore(s: string) {
    forall i :: 0 <= i < |s| ==> IsAsciiLetter(s[i]) || s[i] == '_'
  }

  /** `/^[a-zA-Z0-9_]*$/` */
  predicate IsAlphaNumericUnderscore(s: string) {
    forall i :: 0 <= i < |s| ==> IsAsciiLetter(s[i]) || IsDigit(s[i]) || s[i] == '_'
  }

  /** The `[+-]?` part of the number pattern. */
  predicate OptionalSign(s: string) {
    s == [] || s == "+" || s == "-"
  }

  /** The `([0-9]*[.])?` part of the number pattern. */
  predicate OptionalDottedPart(s: string) {
    s == [] || (s[|s| - 1] == '.' && AllDigits(s[..|s| - 1]))
  }

  /** `/^[+-]?([0-9]*[.])?[0-9]*$/`: the string splits into the three parts. */
  predicate IsNumber(s: string) {
    exists a, b :: 0 <= a <= b <= |s| && OptionalSign(s[..a]) && OptionalDottedPart(s[a..b]) && AllDigits(s[b..])
  }

  /** One character the number pattern can contain. */
  predicate IsNumberChar(c: char) {
    IsDigit(c) || c == '+' || c == '-' || c == '.'
  }

  /** A plain description of the number pattern: only number characters, a sign
      only in first position, and at most one dot. */
  predicate NumberShape(s: string) {
    && (forall i :: 0 <= i < |s| ==> IsNumberChar(s[i]))
    && (forall i :: 0 < i < |s| ==> s[i] != '+' && s[i] != '-')
    && (forall i, j :: 0 <= i < j < |s| && s[i] == '.' ==> s[j] != '.')
  }

  /** An identifier as the lexer reads one: a letter or `_`, then letters, digits or `_`. */
  predicate IsIdentifier(s: string) {
    |s| > 0 && IsAlphaUnderscore(s[..1]) && IsAlphaNumericUnderscore(s[1..])
  }

  // ---------------------------------------------------------------------
  // The predicates on one character, as the lexer uses them.

  lemma AlphaUnderscoreChar(c: char)
    ensures IsAlphaUnderscore([c]) <==> IsAsciiLetter(c) || c == '_'
  {
    assert [c][0] == c;
  }

  lemma AlphaNumericUnderscoreChar(c: char)
    ensures IsAlphaNumericUnderscore([c]) <==> IsAsciiLetter(c) || IsDigit(c) || c == '_'
  {
    assert [c][0] == c;
  }

  /** All three patterns accept the empty string. */
  lemma EmptyAccepted()
    ensures IsAlphaUnderscore("") && IsAlphaNumericUnderscore("") && IsNumber("")
  {
    var s: string := "";
    assert OptionalSign(s[..0]) && OptionalDottedPart(s[0..0]) && AllDigits(s[0..]);
  }

  lemma AlphaImpliesAlphaNumeric(s: string)
    ensures IsAlphaUnderscore(s) ==> IsAlphaNumericUnderscore(s)
  {
  }

  // ---------------------------------------------------------------------
  // The number pattern on whole strings.

  lemma {:induction false} NumberHasShape(s: string)
    requires IsNumber(s)
    ensures NumberShape(s)
  {
    var a, b :| 0 <= a <= b <= |s| && OptionalSign(s[..a]) && OptionalDottedPart(s[a..b]) && AllDigits(s[b..]);
    assert a <= 1;
    forall i | 0 <= i < |s|
      ensures IsNumberChar(s[i])
      ensures i > 0 ==> s[i] != '+' && s[i] != '-'
      ensures s[i] == '.' ==> i == b - 1
    {
      if i < a {
        assert s[..a][i] == s[i];
      } else if i < b {
        assert s[a..b][i - a] == s[i];
        if i < b - 1 {
          assert s[a..b][..b - a - 1][i - a] == s[i];
        }
      } else {
        assert s[b..][i - b] == s[i];
      }
    }
  }

  lemma {:induction false} ShapeIsNumber(s: string)
    requires NumberShape(s)
    ensures IsNumber(s)
  {
    var a := if |s| > 0 && (s[0] == '+' || s[0] == '-') then 1 else 0;
    assert OptionalSign(s[..a]);
    if exists d :: a <= d < |s| && s[d] == '.' {
      var d :| a <= d < |s| && s[d] == '.';
      var b := d + 1;
      forall i | a <= i < d ensures IsDigit(s[i]) {
        assert s[i] != '.';
      }
      assert s[a..b][..b - a - 1] == s[a..d];
      assert OptionalDottedPart(s[a..b]);
      forall i | b <= i < |s| ensures IsDigit(s[i]) {
        assert s[i] != '.';
      }
      assert AllDigits(s[b..]);
    } else {
      assert OptionalDottedPart(s[a..a]);
      assert AllDigits(s[a..]);
    }
  }

  /** The number pattern holds exactly for a sign in first position at most,
      one dot at most, and digits elsewhere. */
  lemma NumberIff(s: string)
    ensures IsNumber(s) <==> NumberShape(s)
  {
    if IsNumber(s) {
      NumberHasShape(s);
    }
    if NumberShape(s) {
      ShapeIsNumber(s);
    }
  }

  lemma NumberChar(c: char)
    ensures IsNumber([c]) <==> IsNumberChar(c)
  {
    NumberIff([c]);
    assert [c][0] == c;
  }

  lemma NumbersAccepted()
    ensures IsNumber(".5") && IsNumber("-1.25") && IsNumber("100")
  {
    NumberIff(".5");
    NumberIff("-1.25");
    NumberIff("100");
  }

  lemma NumbersRejected()
    ensures !IsNumber("1-2") && !IsNumber("1.2.3") && !IsNumber("1a")
  {
    NumberIff("1-2");
    assert "1-2"[1] == '-';
    NumberIff("1.2.3");
    assert "1.2.3"[1] == '.' && "1.2.3"[3] == '.';
    NumberIff("1a");
    assert !IsNumberChar("1a"[1]);
  }
}

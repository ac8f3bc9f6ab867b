/**
 * Anchored regular expressions of fixed width, such as `^\+998[0-9]{9}$`: one character
 * class per position. `Match` walks the text like a regex engine; `Fits` is the
 * position-wise reading it is proved against.
 */
module Patterns {

  /** A single-character class: a literal, `[0-9]`, or `[0-9a-f]` ignoring case. */
  datatype CharClass = Lit(c: char) | Digit | Hex

  predicate InClass(c: char, k: CharClass) {
    match k
    case Lit(l) => c == l
    case Digit => '0' <= c <= '9'
    case Hex => '0' <= c <= '9' || 'a' <= c <= 'f' || 'A' <= c <= 'F'
  }

  function Repeat(k: CharClass, n: nat): (p: seq<CharClass>)
    ensures |p| == n && forall i :: 0 <= i < n ==> p[i] == k
  {
    if n == 0 then [] else [k] + Repeat(k, n - 1)
  }

  function Literal(s: string): (p: seq<CharClass>)
    ensures |p| == |s| && forall i :: 0 <= i < |s| ==> p[i] == Lit(s[i])
  {
    if s == [] then [] else [Lit(s[0])] + Literal(s[1..])
  }

  /** Anchored match, one character at a time. */
  function Match(s: string, p: seq<CharClass>): bool
    decreases |p|
  {
    if p == [] then s == []
    else s != [] && InClass(s[0], p[0]) && Match(s[1..], p[1..])
  }

  /** Position-wise reading of a fixed-width pattern. */
  predicate Fits(s: string, p: seq<CharClass>) {
    |s| == |p| && forall i :: 0 <= i < |s| ==> InClass(s[i], p[i])
  }

  lemma {:induction false} MatchIffFits(s: string, p: seq<CharClass>)
    ensures Match(s, p) <==> Fits(s, p)
    decreases |p|
  {
    if p != [] && s != [] {
      MatchIffFits(s[1..], p[1..]);
      if Fits(s, p) {
        assert forall i :: 0 <= i < |s| - 1 ==> s[1..][i] == s[i + 1] && p[1..][i] == p[i + 1];
      }
      if Match(s, p) {
        forall i | 0 <= i < |s| ensures InClass(s[i], p[i]) {
          if i > 0 { assert s[i] == s[1..][i - 1] && p[i] == p[1..][i - 1]; }
        }
      }
    }
  }

  /** `^\+998[0-9]{9}$`. */
  const PHONE: seq<CharClass> := Literal("+998") + Repeat(Digit, 9)

  /** A canonical UUID, `8-4-4-4-12` hexadecimal digits in either case. */
  const UUID: seq<CharClass> :=
    Repeat(Hex, 8) + [Lit('-')] + Repeat(Hex, 4) + [Lit('-')] + Repeat(Hex, 4) + [Lit('-')] +
    Repeat(Hex, 4) + [Lit('-')] + Repeat(Hex, 12)

  /** A phone matches exactly when it is "+998" followed by nine ASCII digits, 13 characters in all. */
  lemma PhoneShape(s: string)
    ensures Match(s, PHONE) <==> |s| == 13 && s[..4] == "+998" && forall i :: 4 <= i < 13 ==> '0' <= s[i] <= '9'
  {
    MatchIffFits(s, PHONE);
    if |s| == 13 && s[..4] == "+998" {
      assert forall i :: 0 <= i < 4 ==> s[i] == "+998"[i];
    }
    if Fits(s, PHONE) {
      assert forall i :: 0 <= i < 4 ==> s[i] == "+998"[i];
      assert s[..4] == "+998";
    }
  }

  /**
   * A UUID is 36 characters with dashes at positions 8, 13, 18 and 23 and a hexadecimal
   * digit everywhere else.
   */
  lemma UuidShape(s: string)
    ensures Match(s, UUID) <==>
      && |s| == 36
      && (forall i :: 0 <= i < 36 && i in {8, 13, 18, 23} ==> s[i] == '-')
      && (forall i :: 0 <= i < 36 && i !in {8, 13, 18, 23} ==> InClass(s[i], Hex))
  {
    MatchIffFits(s, UUID);
    assert |UUID| == 36;
    assert forall i :: 0 <= i < 36 && i in {8, 13, 18, 23} ==> UUID[i] == Lit('-');
    assert forall i :: 0 <= i < 36 && i !in {8, 13, 18, 23} ==> UUID[i] == Hex;
  }
}

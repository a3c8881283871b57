/** Telling an unpaired surrogate escape from other malformed JSON text.

    The scanner works on octets; every octet it looks for is ASCII, so it is modelled on characters.
 */
module Surrogates {
  import opened Prelude

  /** A piece of JSON text: a `\u` escape of one UTF-16 code unit inside a string, or anything else. */
  datatype Piece = Unit(cp: int) | Other

  /** `from_str_radix(_, 16)`: hexadecimal digits, after an optional plus sign. */
  function ParseHex(s: string): Option<int> {
    var digits := if s != "" && s[0] == '+' then s[1..] else s;
    if digits == "" then None else HexNumber(digits)
  }

  function HexNumber(s: string): Option<int> {
    if s == "" then Some(0)
    else
      var last := HexValue(s[|s| - 1]);
      match HexNumber(s[..|s| - 1])
      case Some(n) => if last < 0 then None else Some(16 * n + last)
      case None => None
  }

  function HexAt(s: string, i: nat): Option<int> {
    if i + 4 > |s| then None else ParseHex(s[i..i + 4])
  }

  /** Four digits, or a plus sign and three. */
  ghost predicate ReadsHex(s: string, i: nat, n: int) {
    && i + 4 <= |s| && HexValue(s[i + 1]) >= 0 && HexValue(s[i + 2]) >= 0 && HexValue(s[i + 3]) >= 0
    && (HexValue(s[i]) >= 0 || s[i] == '+')
    && n == (if s[i] == '+' then 0 else HexValue(s[i]) * 0x1000) + HexValue(s[i + 1]) * 0x100
            + HexValue(s[i + 2]) * 0x10 + HexValue(s[i + 3])
  }

  lemma HexOfThree(s: string)
    requires |s| == 3
    ensures HexNumber(s).Some? <==> HexValue(s[0]) >= 0 && HexValue(s[1]) >= 0 && HexValue(s[2]) >= 0
    ensures HexNumber(s).Some? ==> HexNumber(s).value == HexValue(s[0]) * 0x100 + HexValue(s[1]) * 0x10 + HexValue(s[2])
  {
    var one, two := s[..1], s[..2];
    assert one[..0] == "" && two[..1] == one && s[..|s| - 1] == two;
    assert HexNumber(one) == if HexValue(s[0]) < 0 then None else Some(HexValue(s[0]));
    assert HexNumber(two) == if HexValue(s[0]) < 0 || HexValue(s[1]) < 0 then None else Some(HexValue(s[0]) * 0x10 + HexValue(s[1]));
  }

  lemma HexAtExactly(s: string, i: nat, n: int)
    ensures HexAt(s, i) == Some(n) <==> ReadsHex(s, i, n)
  {
    if i + 4 <= |s| {
      var four := s[i..i + 4];
      assert four[0] == s[i] && four[1] == s[i + 1] && four[2] == s[i + 2] && four[3] == s[i + 3];
      HexDigits('+');
      if four[0] == '+' {
        HexOfThree(four[1..]);
      } else {
        HexOfThree(four[..3]);
        assert four[..|four| - 1] == four[..3];
      }
    }
  }

  predicate IsHigh(cp: int) {
    0xD800 <= cp <= 0xDBFF
  }

  predicate IsLow(cp: int) {
    0xDC00 <= cp <= 0xDFFF
  }

  predicate CharAt(s: string, i: nat, c: char) {
    i < |s| && s[i] == c
  }

  /** The pieces of a text from position `i` on. */
  function Pieces(s: string, i: nat, inString: bool): seq<Piece>
    decreases |s| - i
  {
    if i >= |s| then []
    else if !inString then [Other] + Pieces(s, i + 1, s[i] == '"')
    else if s[i] == '"' then [Other] + Pieces(s, i + 1, false)
    else if s[i] != '\\' then [Other] + Pieces(s, i + 1, true)
    else if CharAt(s, i + 1, 'u') && HexAt(s, i + 2).Some? then [Unit(HexAt(s, i + 2).value)] + Pieces(s, i + 6, true)
    else [Other] + Pieces(s, i + 2, true)
  }

  predicate HighAt(ps: seq<Piece>, k: int) {
    0 <= k < |ps| && ps[k].Unit? && 0xD800 <= ps[k].cp < 0xDC00
  }

  predicate LowAt(ps: seq<Piece>, k: int) {
    0 <= k < |ps| && ps[k].Unit? && 0xDC00 <= ps[k].cp < 0xE000
  }

  /** A high surrogate with no low one right after it, or a low one with no high one right before it. */
  predicate LoneAt(ps: seq<Piece>, k: nat) {
    (HighAt(ps, k) && !LowAt(ps, k + 1)) || (LowAt(ps, k) && !HighAt(ps, k - 1))
  }

  ghost predicate HasLone(ps: seq<Piece>) {
    exists k: nat :: k < |ps| && LoneAt(ps, k)
  }

  /** A piece that is no surrogate changes nothing. */
  lemma SkipPiece(p: Piece, rest: seq<Piece>)
    requires p.Other? || (!IsHigh(p.cp) && !IsLow(p.cp))
    ensures HasLone([p] + rest) <==> HasLone(rest)
  {
    var ps := [p] + rest;
    forall k: nat | k < |rest| ensures LoneAt(rest, k) <==> LoneAt(ps, k + 1) {
      assert ps[k + 1] == rest[k];
      assert k + 1 < |rest| ==> ps[k + 2] == rest[k + 1];
      assert k > 0 ==> ps[k] == rest[k - 1];
    }
    if HasLone(ps) {
      var k: nat :| k < |ps| && LoneAt(ps, k);
      assert LoneAt(rest, k - 1);
    }
    if HasLone(rest) {
      var k: nat :| k < |rest| && LoneAt(rest, k);
      assert LoneAt(ps, k + 1);
    }
  }

  /** Neither does a high surrogate with its low one. */
  lemma SkipPair(high: Piece, low: Piece, rest: seq<Piece>)
    requires high.Unit? && IsHigh(high.cp) && low.Unit? && IsLow(low.cp)
    ensures HasLone([high] + ([low] + rest)) <==> HasLone(rest)
  {
    var ps := [high] + ([low] + rest);
    assert ps[0] == high && ps[1] == low;
    forall k: nat | k < |rest| ensures LoneAt(rest, k) <==> LoneAt(ps, k + 2) {
      assert ps[k + 2] == rest[k];
      assert k + 1 < |rest| ==> ps[k + 3] == rest[k + 1];
      assert k > 0 ==> ps[k + 1] == rest[k - 1];
    }
    if HasLone(ps) {
      var k: nat :| k < |ps| && LoneAt(ps, k);
      assert k >= 2 && LoneAt(rest, k - 2);
    }
    if HasLone(rest) {
      var k: nat :| k < |rest| && LoneAt(rest, k);
      assert LoneAt(ps, k + 2);
    }
  }

  /** What the text goes on with after a high surrogate escape. */
  lemma AfterHigh(s: string, i: nat)
    ensures var ps := Pieces(s, i, true);
      LowAt(ps, 0) <==> CharAt(s, i, '\\') && CharAt(s, i + 1, 'u') && HexAt(s, i + 2).Some? && IsLow(HexAt(s, i + 2).value)
  {
  }

  /** The scan finds an unpaired surrogate escape exactly when there is one: pairing from the left
      mistakes none. */
  method HasLoneSurrogateEscape(text: string) returns (lone: bool)
    ensures lone <==> HasLone(Pieces(text, 0, false))
  {
    var i, inString := 0, false;
    while i < |text|
      invariant 0 <= i
      invariant HasLone(Pieces(text, 0, false)) <==> HasLone(Pieces(text, i, inString))
      decreases |text| - i
    {
      if !inString {
        SkipPiece(Other, Pieces(text, i + 1, text[i] == '"'));
        inString := text[i] == '"';
        i := i + 1;
        continue;
      }
      match text[i] {
        case '"' =>
          SkipPiece(Other, Pieces(text, i + 1, false));
          inString := false;
          i := i + 1;
        case '\\' =>
          var hex := if CharAt(text, i + 1, 'u') then HexAt(text, i + 2) else None;
          if hex.Some? && IsHigh(hex.value) {
            AfterHigh(text, i + 6);
            var low := HexAt(text, i + 8);
            var paired := CharAt(text, i + 6, '\\') && CharAt(text, i + 7, 'u') && low.Some? && IsLow(low.value);
            if !paired {
              assert LoneAt(Pieces(text, i, true), 0);
              return true;
            }
            SkipPair(Unit(hex.value), Unit(low.value), Pieces(text, i + 12, true));
            i := i + 12;
          } else if hex.Some? && IsLow(hex.value) {
            assert LoneAt(Pieces(text, i, true), 0);
            return true;
          } else {
            SkipPiece(if hex.Some? then Unit(hex.value) else Other, Pieces(text, if hex.Some? then i + 6 else i + 2, true));
            i := if hex.Some? then i + 6 else i + 2;
          }
        case _ =>
          SkipPiece(Other, Pieces(text, i + 1, true));
          i := i + 1;
      }
    }
    return false;
  }
}

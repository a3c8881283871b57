/** Shared value types, and the order in which both implementations compare text. */
module Prelude {

  datatype Option<+T> = None | Some(value: T)

  datatype Result<+T, +E> = Ok(value: T) | Err(error: E)

  /** `a < b` on text: Python compares code points, Rust the UTF-8 octets, and the two agree. */
  predicate LexLt(a: string, b: string) {
    if b == "" then false
    else if a == "" then true
    else a[0] < b[0] || (a[0] == b[0] && LexLt(a[1..], b[1..]))
  }

  /** `a <= b` on text. */
  predicate LexLe(a: string, b: string) {
    !LexLt(b, a)
  }

  lemma {:induction false} LexTotal(a: string, b: string)
    ensures LexLt(a, b) || a == b || LexLt(b, a)
    ensures !(LexLt(a, b) && LexLt(b, a))
    ensures a == b ==> !LexLt(a, b)
  {
    if a != "" && b != "" && a[0] == b[0] {
      LexTotal(a[1..], b[1..]);
      assert a == [a[0]] + a[1..] && b == [b[0]] + b[1..];
    }
  }

  lemma {:induction false} LexTransitive(a: string, b: string, c: string)
    requires LexLt(a, b) && LexLt(b, c)
    ensures LexLt(a, c)
  {
    if a != "" && a[0] == b[0] && b[0] == c[0] {
      LexTransitive(a[1..], b[1..], c[1..]);
    }
  }

  /** `a < b <= c` gives `a < c`. */
  lemma LexLtLe(a: string, b: string, c: string)
    requires LexLt(a, b) && LexLe(b, c)
    ensures LexLt(a, c)
  {
    LexTotal(b, c);
    if LexLt(b, c) {
      LexTransitive(a, b, c);
    }
  }

  predicate IsDigit(c: char) {
    '0' <= c <= '9'
  }

  function DigitOf(c: char): (d: nat)
    ensures d < 10
    ensures IsDigit(c) ==> d == c as int - '0' as int
  {
    if IsDigit(c) then (c - '0') as nat else 0
  }

  function CharOf(d: nat): (c: char)
    requires d < 10
    ensures IsDigit(c) && DigitOf(c) == d
  {
    '0' + d as char
  }

  /** The value of a hexadecimal digit, or -1. */
  function HexValue(c: char): (n: int)
    ensures -1 <= n < 16
  {
    if '0' <= c <= '9' then (c - '0') as int
    else if 'a' <= c <= 'f' then (c - 'a') as int + 10
    else if 'A' <= c <= 'F' then (c - 'A') as int + 10
    else -1
  }

  /** The digits are these, of either case, and no other characters are. */
  lemma HexDigits(c: char)
    ensures forall k :: 0 <= k < 16 ==> HexValue("0123456789abcdef"[k]) == k && HexValue("0123456789ABCDEF"[k]) == k
    ensures HexValue(c) >= 0 ==> c == "0123456789abcdef"[HexValue(c)] || c == "0123456789ABCDEF"[HexValue(c)]
  {
  }
}

/** The canonical form of a JSON value (RFC 8785) as text, and a reader of it. */
module Canonical {
  import opened Prelude
  import opened Decimal
  import opened Numbers
  import opened Json
  import opened Sorting

  // ---- strings ----

  function HexDigit(n: nat): char
    requires n < 16
  {
    if n < 10 then '0' + n as char else 'a' + (n - 10) as char
  }

  /** The named escapes, by the character escaped. */
  function NamedEscape(c: char): Option<char> {
    if c == '"' then Some('"')
    else if c == '\\' then Some('\\')
    else if c as int == 8 then Some('b')
    else if c as int == 9 then Some('t')
    else if c as int == 10 then Some('n')
    else if c as int == 12 then Some('f')
    else if c as int == 13 then Some('r')
    else None
  }

  /** Named escapes, `\u00xx` for other control characters, and everything else as it stands. */
  function Escape(c: char): (s: string)
    ensures s != ""
  {
    if NamedEscape(c).Some? then ['\\', NamedEscape(c).value]
    else if c as int < 0x20 then ['\\', 'u', '0', '0', HexDigit(c as int / 16), HexDigit(c as int % 16)]
    else [c]
  }

  function Escaped(s: string): string {
    if s == "" then "" else Escape(s[0]) + Escaped(s[1..])
  }

  function Quoted(s: string): string {
    "\"" + Escaped(s) + "\""
  }

  /** How each character is written inside a string: seven by name, the other controls by number, the rest as they
      stand. */
  predicate Writes(c: char, s: string) {
    var code := c as int;
    if c == '"' then s == "\\\""
    else if c == '\\' then s == "\\\\"
    else if code == 0x08 then s == "\\b"
    else if code == 0x09 then s == "\\t"
    else if code == 0x0A then s == "\\n"
    else if code == 0x0C then s == "\\f"
    else if code == 0x0D then s == "\\r"
    else if code < 0x20 then
      |s| == 6 && s[..4] == "\\u00" && s[4] == (if code < 0x10 then '0' else '1') && s[5] == "0123456789abcdef"[code % 0x10]
    else s == [c]
  }

  lemma EscapeIsWritten(c: char)
    ensures Writes(c, Escape(c))
  {
    var low := c as int % 16;
    if c as int < 0x20 {
      assert HexDigit(low) == "0123456789abcdef"[low];
      assert HexDigit(c as int / 16) == if c as int < 0x10 then '0' else '1';
    }
  }

  /** What each character is written as. */
  ghost predicate WritesEach(s: string, pieces: seq<string>) {
    |pieces| == |s| && forall i :: 0 <= i < |s| ==> Writes(s[i], pieces[i])
  }

  /** A string is written as its characters are, one after the other, between quotes. */
  ghost predicate WritesString(s: string, text: string) {
    exists pieces :: WritesEach(s, pieces) && text == "\"" + Concat(pieces) + "\""
  }

  lemma {:induction false} EscapedIsWritten(s: string) returns (pieces: seq<string>)
    ensures WritesEach(s, pieces) && Escaped(s) == Concat(pieces)
  {
    if s == "" {
      pieces := [];
    } else {
      var rest := EscapedIsWritten(s[1..]);
      EscapeIsWritten(s[0]);
      pieces := [Escape(s[0])] + rest;
      assert pieces[1..] == rest;
    }
  }

  lemma QuotedIsWritten(s: string)
    ensures WritesString(s, Quoted(s))
  {
    var pieces := EscapedIsWritten(s);
  }

  // ---- numbers ----

  /** What the number printer writes; a number that is not finite has no canonical form. */
  function NumberText(n: Num): string {
    match n
    case NonFinite => ""
    case Zero => "0"
    case Signed(negative, m) => if m.digits == "" then "" else if negative then "-" + Layout(m) else Layout(m)
  }

  // ---- values ----

  /** The pieces a canonical text is written in. */
  datatype Token = Word(value: Json) | Figure(num: Num) | Text(s: string) | Mark(c: char)

  function TokenText(t: Token): string {
    match t
    case Word(Null) => "null"
    case Word(Truth(on)) => if on then "true" else "false"
    case Word(_) => ""
    case Figure(n) => NumberText(n)
    case Text(s) => Quoted(s)
    case Mark(c) => [c]
  }

  function Concat(texts: seq<string>): string {
    if texts == [] then "" else texts[0] + Concat(texts[1..])
  }

  function Texts(ts: seq<Token>): (r: seq<string>)
    ensures |r| == |ts| && forall i :: 0 <= i < |ts| ==> r[i] == TokenText(ts[i])
  {
    seq(|ts|, i requires 0 <= i < |ts| => TokenText(ts[i]))
  }

  function Spell(ts: seq<Token>): string {
    Concat(Texts(ts))
  }

  /** A value's pieces, with its members in the order given. */
  function Tokens(v: Json): seq<Token> {
    match v
    case Null => [Word(Null)]
    case Truth(on) => [Word(Truth(on))]
    case Number(n) => [Figure(n)]
    case Str(s) => [Text(s)]
    case List(items) => [Mark('[')] + ItemTokens(items, 0) + [Mark(']')]
    case Object(ms) => [Mark('{')] + MemberTokens(ms, 0) + [Mark('}')]
  }

  function Comma(i: nat): seq<Token> {
    if i > 0 then [Mark(',')] else []
  }

  /** The items from this one on, a comma before each but the first. */
  function ItemTokens(items: seq<Json>, i: nat): seq<Token>
    requires i <= |items|
    decreases items, |items| - i
  {
    if i == |items| then [] else Comma(i) + Tokens(items[i]) + ItemTokens(items, i + 1)
  }

  function MemberTokens(ms: seq<Member>, i: nat): seq<Token>
    requires i <= |ms|
    decreases ms, |ms| - i
  {
    if i == |ms| then []
    else Comma(i) + [Text(ms[i].name), Mark(':')] + Tokens(ms[i].value) + MemberTokens(ms, i + 1)
  }

  /** A value's text with its members in the order given. */
  function Print(v: Json): string {
    Spell(Tokens(v))
  }

  /** JCS: the text with the members of every object in order. */
  function Canon(v: Json): string {
    Print(Ordered(v))
  }

  lemma {:induction false} ConcatJoins(a: seq<string>, b: seq<string>)
    ensures Concat(a + b) == Concat(a) + Concat(b)
  {
    if a == [] {
      assert a + b == b;
    } else {
      ConcatJoins(a[1..], b);
      assert (a + b)[0] == a[0] && (a + b)[1..] == a[1..] + b;
      assert a[0] + (Concat(a[1..]) + Concat(b)) == (a[0] + Concat(a[1..])) + Concat(b);
    }
  }

  lemma SpellJoins(a: seq<Token>, b: seq<Token>)
    ensures Spell(a + b) == Spell(a) + Spell(b)
  {
    assert Texts(a + b) == Texts(a) + Texts(b);
    ConcatJoins(Texts(a), Texts(b));
  }

  lemma SpellFirst(ts: seq<Token>)
    requires ts != []
    ensures Spell(ts) == TokenText(ts[0]) + Spell(ts[1..])
  {
    assert Texts(ts)[0] == TokenText(ts[0]) && Texts(ts)[1..] == Texts(ts[1..]);
  }
}

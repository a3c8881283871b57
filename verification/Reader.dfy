/** A reader of canonical text, and that it inverts the printer: the canonical form is uniquely readable. */
module Reader {
  import opened Prelude
  import opened Decimal
  import opened Numbers
  import opened Json
  import opened Sorting
  import opened Canonical

  // ---- strings ----

  function NamedUnescape(c: char): Option<char> {
    if c == '"' then Some('"')
    else if c == '\\' then Some('\\')
    else if c == 'b' then Some(8 as char)
    else if c == 't' then Some(9 as char)
    else if c == 'n' then Some(10 as char)
    else if c == 'f' then Some(12 as char)
    else if c == 'r' then Some(13 as char)
    else None
  }

  /** One escape, past its backslash. */
  function ReadEscape(s: string): (r: Option<(char, string)>)
    ensures r.Some? ==> |r.value.1| < |s|
  {
    if s == "" then None
    else if s[0] != 'u' then
      match NamedUnescape(s[0]) case Some(c) => Some((c, s[1..])) case None => None
    else if |s| < 5 || HexValue(s[1]) < 0 || HexValue(s[2]) < 0 || HexValue(s[3]) < 0 || HexValue(s[4]) < 0 then None
    else
      var n := HexValue(s[1]) * 0x1000 + HexValue(s[2]) * 0x100 + HexValue(s[3]) * 0x10 + HexValue(s[4]);
      if 0xD800 <= n < 0xE000 then None else Some((n as char, s[5..]))
  }

  /** A string, past its opening quote. */
  function ReadString(s: string): (r: Option<(string, string)>)
    ensures r.Some? ==> |r.value.1| < |s|
    decreases |s|
  {
    if s == "" then None
    else if s[0] == '"' then Some(("", s[1..]))
    else
      match if s[0] == '\\' then ReadEscape(s[1..]) else Some((s[0], s[1..]))
      case None => None
      case Some((c, rest)) =>
        match ReadString(rest) case None => None case Some((t, end)) => Some(([c] + t, end))
  }

  lemma EscapeReads(c: char, rest: string)
    ensures var s := Escape(c) + rest;
      if s[0] == '\\' then ReadEscape(s[1..]) == Some((c, rest)) else s[0] == c && s[0] != '"' && s[1..] == rest
  {
    var s := Escape(c) + rest;
    if NamedEscape(c).Some? {
      assert s[1..] == [NamedEscape(c).value] + rest;
      assert s[1..][1..] == rest;
    } else if c as int < 0x20 {
      assert s[1..] == ['u', '0', '0', HexDigit(c as int / 16), HexDigit(c as int % 16)] + rest;
      assert s[1..][5..] == rest;
    }
  }

  lemma {:induction false} StringReads(t: string, rest: string)
    ensures ReadString(Escaped(t) + "\"" + rest) == Some((t, rest))
  {
    var s := Escaped(t) + "\"" + rest;
    if t == "" {
      assert s == "\"" + rest && s[1..] == rest;
    } else {
      var more := Escaped(t[1..]) + "\"" + rest;
      assert s == Escape(t[0]) + more;
      EscapeReads(t[0], more);
      StringReads(t[1..], rest);
      assert [t[0]] + t[1..] == t;
    }
  }

  // ---- numbers ----

  predicate NumberChar(c: char) {
    IsDigit(c) || c == '.' || c == 'e' || c == '+' || c == '-'
  }

  function NumberRun(s: string): (n: nat)
    ensures n <= |s|
  {
    if s == "" || !NumberChar(s[0]) then 0 else 1 + NumberRun(s[1..])
  }

  lemma {:induction false} RunIsToken(token: string, rest: string)
    requires (forall i :: 0 <= i < |token| ==> NumberChar(token[i])) && (rest != "" ==> !NumberChar(rest[0]))
    ensures NumberRun(token + rest) == |token|
  {
    if token == "" {
      assert token + rest == rest;
    } else {
      RunIsToken(token[1..], rest);
      assert (token + rest)[1..] == token[1..] + rest;
    }
  }

  function ReadNumber(token: string): Num {
    if token == "0" then Zero
    else if token != "" && token[0] == '-' then Signed(true, ShortestOf(ReadLiteral(token[1..])))
    else Signed(false, ShortestOf(ReadLiteral(token)))
  }

  predicate NumberChars(s: string) {
    forall i :: 0 <= i < |s| ==> NumberChar(s[i])
  }

  lemma CharsJoin(a: string, b: string)
    requires NumberChars(a) && NumberChars(b)
    ensures NumberChars(a + b)
  {
  }

  lemma TextChars(t: Literal, powered: bool)
    requires IsLiteral(t)
    ensures NumberChars(TextOf(t, powered))
  {
    var fraction := if t.fraction == "" then "" else "." + t.fraction;
    var power := if powered then "e" + PowerText(t.exponent) else "";
    CharsJoin(t.whole, fraction);
    CharsJoin(Mantissa(t.whole, t.fraction), power);
  }

  lemma LayoutIsNotZero(n: Shortest)
    requires Normal(n)
    ensures Layout(n) != "0"
  {
    var point := n.exponent + |n.digits|;
    if -6 < point <= 0 {
      assert |Layout(n)| > 1;
    } else {
      assert Layout(n)[0] == n.digits[0];
    }
  }

  lemma LayoutChars(n: Shortest)
    requires Normal(n)
    ensures Layout(n) != "" && IsDigit(Layout(n)[0]) && Layout(n) != "0" && NumberChars(Layout(n))
  {
    LayoutIsLaid(n);
    LayoutIsNotZero(n);
    TextChars(Laid(n), Powered(n));
    var t := Laid(n);
    assert t.whole != "" && TextOf(t, Powered(n))[0] == t.whole[0];
  }

  lemma SignedReads(token: string, n: Shortest)
    requires ShortestOf(ReadLiteral(token)) == n && token != "" && token != "0" && IsDigit(token[0])
    ensures ReadNumber("-" + token) == Signed(true, n) && ReadNumber(token) == Signed(false, n)
  {
    assert ("-" + token)[1..] == token;
  }

  lemma SignedTextReads(negative: bool, n: Shortest, token: string)
    requires token != "" && IsDigit(token[0]) && token != "0" && NumberChars(token) && ShortestOf(ReadLiteral(token)) == n
    ensures var text := if negative then "-" + token else token;
      text != "" && (text[0] == '-' || IsDigit(text[0])) && ReadNumber(text) == Signed(negative, n) && NumberChars(text)
  {
    SignedReads(token, n);
    CharsJoin("-", token);
  }

  lemma NumberTextReads(n: Num)
    requires FiniteNumber(n)
    ensures NumberText(n) != "" && (NumberText(n)[0] == '-' || IsDigit(NumberText(n)[0]))
    ensures ReadNumber(NumberText(n)) == n && NumberChars(NumberText(n))
  {
    if n.Signed? {
      LayoutChars(n.n);
      NumberReadsBack(n.n);
      SignedTextReads(n.negative, n.n, Layout(n.n));
    }
  }

  // ---- pieces ----

  /** How the text of a figure is read. */
  type Figures = string -> Num

  ghost predicate ReadsFigures(read: Figures) {
    forall n: Num :: FiniteNumber(n) ==> read(NumberText(n)) == n
  }

  /** The run of number characters a text starts with. */
  function ReadFigure(s: string, n: nat, read: Figures): Option<(Token, string)>
    requires n <= |s|
  {
    if n == 0 then None else Some((Figure(read(s[..n])), s[n..]))
  }

  /** A word, if the text starts with it. */
  function ReadWord(s: string, word: string, v: Json): Option<(Token, string)> {
    if |word| <= |s| && s[..|word|] == word then Some((Word(v), s[|word|..])) else None
  }

  predicate IsMark(c: char) {
    c == '[' || c == ']' || c == '{' || c == '}' || c == ',' || c == ':'
  }

  /** The first piece of a text, and what follows it. */
  function ReadToken(s: string, read: Figures): Option<(Token, string)> {
    if s == "" then None
    else if IsMark(s[0]) then Some((Mark(s[0]), s[1..]))
    else if s[0] == '"' then
      match ReadString(s[1..]) case Some((t, rest)) => Some((Text(t), rest)) case None => None
    else if s[0] == 'n' then ReadWord(s, "null", Null)
    else if s[0] == 't' then ReadWord(s, "true", Truth(true))
    else if s[0] == 'f' then ReadWord(s, "false", Truth(false))
    else ReadFigure(s, NumberRun(s), read)
  }

  /** All the pieces of a text. */
  function Lex(s: string, read: Figures): Option<seq<Token>>
    decreases |s|
  {
    if s == "" then Some([])
    else
      match ReadToken(s, read)
      case None => None
      case Some((t, rest)) =>
        if |rest| >= |s| then None
        else match Lex(rest, read) case None => None case Some(ts) => Some([t] + ts)
  }

  predicate Written(t: Token) {
    match t
    case Word(v) => v.Null? || v.Truth?
    case Figure(n) => FiniteNumber(n)
    case Text(_) => true
    case Mark(c) => IsMark(c)
  }

  /** The pieces are of the kinds a printer writes, and no figure follows another. */
  predicate Separated(ts: seq<Token>) {
    && (forall i :: 0 <= i < |ts| ==> Written(ts[i]))
    && (forall i :: 0 < i < |ts| && ts[i - 1].Figure? ==> !ts[i].Figure?)
  }

  lemma WordReads(word: string, v: Json, rest: string)
    requires word != ""
    ensures ReadWord(word + rest, word, v) == Some((Word(v), rest)) && (word + rest)[0] == word[0]
  {
    assert (word + rest)[..|word|] == word && (word + rest)[|word|..] == rest;
  }

  lemma FigureReads(token: string, rest: string, read: Figures)
    requires token != "" && (token[0] == '-' || IsDigit(token[0])) && NumberChars(token)
    requires rest != "" ==> !NumberChar(rest[0])
    ensures ReadToken(token + rest, read) == Some((Figure(read(token)), rest))
  {
    RunIsToken(token, rest);
    assert (token + rest)[0] == token[0] && (token + rest)[..|token|] == token && (token + rest)[|token|..] == rest;
  }

  lemma TextReads(s: string, rest: string, read: Figures)
    ensures ReadToken(Quoted(s) + rest, read) == Some((Text(s), rest)) && Quoted(s) != "" && Quoted(s)[0] == '"'
  {
    StringReads(s, rest);
    assert (Quoted(s) + rest)[1..] == Escaped(s) + "\"" + rest;
  }

  lemma MarkReads(c: char, rest: string, read: Figures)
    requires IsMark(c)
    ensures ReadToken([c] + rest, read) == Some((Mark(c), rest))
  {
    assert ([c] + rest)[1..] == rest;
  }

  /** One piece reads back, whatever follows it but a figure after a figure. */
  lemma TokenReads(t: Token, rest: string, read: Figures)
    requires ReadsFigures(read) && Written(t) && (t.Figure? && rest != "" ==> !NumberChar(rest[0]))
    ensures ReadToken(TokenText(t) + rest, read) == Some((t, rest))
    ensures TokenText(t) != "" && (!t.Figure? ==> !NumberChar(TokenText(t)[0]))
  {
    match t
    case Word(v) => WordReads(TokenText(t), v, rest);
    case Figure(n) =>
      NumberTextReads(n);
      FigureReads(NumberText(n), rest, read);
    case Text(s) => TextReads(s, rest, read);
    case Mark(c) => MarkReads(c, rest, read);
  }

  lemma {:induction false} PiecesRead(ts: seq<Token>, read: Figures)
    requires ReadsFigures(read) && Separated(ts)
    ensures Lex(Spell(ts), read) == Some(ts)
  {
    if ts != [] {
      SpellStartsAfter(ts, read);
      SpellFirst(ts);
      TokenReads(ts[0], Spell(ts[1..]), read);
      PiecesRead(ts[1..], read);
      assert [ts[0]] + ts[1..] == ts;
    }
  }

  lemma SpellStartsAfter(ts: seq<Token>, read: Figures)
    requires ReadsFigures(read) && Separated(ts) && ts != []
    ensures Separated(ts[1..])
    ensures ts[0].Figure? && Spell(ts[1..]) != "" ==> !NumberChar(Spell(ts[1..])[0])
  {
    var rest := ts[1..];
    assert forall i :: 0 <= i < |rest| ==> rest[i] == ts[i + 1];
    if ts[0].Figure? && rest != [] {
      SpellFirst(rest);
      TokenReads(rest[0], "", read);
    }
  }

  // ---- values ----

  function ReadValue(ts: seq<Token>): (r: Option<(Json, seq<Token>)>)
    ensures r.Some? ==> |r.value.1| < |ts|
    decreases |ts|, 0
  {
    if ts == [] then None
    else
      match ts[0]
      case Word(v) => Some((v, ts[1..]))
      case Figure(n) => Some((Number(n), ts[1..]))
      case Text(s) => Some((Str(s), ts[1..]))
      case Mark(c) =>
        if c == '[' then ReadList(ts[1..]) else if c == '{' then ReadObject(ts[1..]) else None
  }

  /** A list, past its opening bracket. */
  function ReadList(ts: seq<Token>): (r: Option<(Json, seq<Token>)>)
    ensures r.Some? ==> |r.value.1| < |ts|
    decreases |ts|, 2
  {
    if ts != [] && ts[0] == Mark(']') then Some((List([]), ts[1..]))
    else match ReadItems(ts) case Some((items, rest)) => Some((List(items), rest)) case None => None
  }

  /** One or more items, past the bracket or a comma. */
  function ReadItems(ts: seq<Token>): (r: Option<(seq<Json>, seq<Token>)>)
    ensures r.Some? ==> |r.value.1| < |ts|
    decreases |ts|, 1
  {
    match ReadValue(ts)
    case None => None
    case Some((v, rest)) =>
      if rest == [] then None
      else if rest[0] == Mark(']') then Some(([v], rest[1..]))
      else if rest[0] != Mark(',') then None
      else match ReadItems(rest[1..]) case None => None case Some((vs, end)) => Some(([v] + vs, end))
  }

  /** An object, past its opening brace. */
  function ReadObject(ts: seq<Token>): (r: Option<(Json, seq<Token>)>)
    ensures r.Some? ==> |r.value.1| < |ts|
    decreases |ts|, 2
  {
    if ts != [] && ts[0] == Mark('}') then Some((Object([]), ts[1..]))
    else match ReadMembers(ts) case Some((ms, rest)) => Some((Object(ms), rest)) case None => None
  }

  /** One or more members, past the brace or a comma. */
  function ReadMembers(ts: seq<Token>): (r: Option<(seq<Member>, seq<Token>)>)
    ensures r.Some? ==> |r.value.1| < |ts|
    decreases |ts|, 1
  {
    if |ts| < 2 || !ts[0].Text? || ts[1] != Mark(':') then None
    else
      match ReadValue(ts[2..])
      case None => None
      case Some((v, rest)) =>
        var m := Member(ts[0].s, v);
        if rest == [] then None
        else if rest[0] == Mark('}') then Some(([m], rest[1..]))
        else if rest[0] != Mark(',') then None
        else match ReadMembers(rest[1..]) case None => None case Some((ms, end)) => Some(([m] + ms, end))
  }

  /** Read a whole text as one value. */
  function ReadText(s: string): Option<Json> {
    match Lex(s, t => ReadNumber(t))
    case None => None
    case Some(ts) => match ReadValue(ts) case None => None case Some((v, rest)) => if rest == [] then Some(v) else None
  }

  // ---- the reader inverts the printer ----

  /** The items from this one on, without the comma before it, up to and past the closing bracket. */
  function ItemsText(items: seq<Json>, i: nat, rest: seq<Token>): seq<Token>
    requires i < |items|
  {
    Tokens(items[i]) + ItemsAfter(items, i + 1, rest)
  }

  function ItemsAfter(items: seq<Json>, i: nat, rest: seq<Token>): seq<Token>
    requires i <= |items|
  {
    ItemTokens(items, i) + ([Mark(']')] + rest)
  }

  lemma ItemsAfterIs(items: seq<Json>, i: nat, rest: seq<Token>)
    requires 0 < i <= |items|
    ensures ItemsAfter(items, i, rest) == if i == |items| then [Mark(']')] + rest else [Mark(',')] + ItemsText(items, i, rest)
  {
  }

  lemma OnItem(ts: seq<Token>, v: Json, next: seq<Token>, items: seq<Json>, rest: seq<Token>)
    ensures ReadValue(ts) == Some((v, [Mark(']')] + rest)) ==> ReadItems(ts) == Some(([v], rest))
    ensures ReadValue(ts) == Some((v, [Mark(',')] + next)) && ReadItems(next) == Some((items, rest)) ==>
              ReadItems(ts) == Some(([v] + items, rest))
  {
  }

  /** The members from this one on, without the comma before it, up to and past the closing brace. */
  function MembersText(ms: seq<Member>, i: nat, rest: seq<Token>): seq<Token>
    requires i < |ms|
  {
    [Text(ms[i].name), Mark(':')] + (Tokens(ms[i].value) + MembersAfter(ms, i + 1, rest))
  }

  function MembersAfter(ms: seq<Member>, i: nat, rest: seq<Token>): seq<Token>
    requires i <= |ms|
  {
    MemberTokens(ms, i) + ([Mark('}')] + rest)
  }

  lemma MembersAfterIs(ms: seq<Member>, i: nat, rest: seq<Token>)
    requires 0 < i <= |ms|
    ensures MembersAfter(ms, i, rest) == if i == |ms| then [Mark('}')] + rest else [Mark(',')] + MembersText(ms, i, rest)
  {
  }

  lemma OnMember(name: string, ts: seq<Token>, v: Json, next: seq<Token>, ms: seq<Member>, rest: seq<Token>)
    ensures var all := [Text(name), Mark(':')] + ts;
      && (ReadValue(ts) == Some((v, [Mark('}')] + rest)) ==> ReadMembers(all) == Some(([Member(name, v)], rest)))
      && (ReadValue(ts) == Some((v, [Mark(',')] + next)) && ReadMembers(next) == Some((ms, rest)) ==>
            ReadMembers(all) == Some(([Member(name, v)] + ms, rest)))
  {
    assert ([Text(name), Mark(':')] + ts)[2..] == ts;
  }

  lemma OnMark(ts: seq<Token>)
    ensures ReadValue([Mark('[')] + ts) == ReadList(ts) && ReadValue([Mark('{')] + ts) == ReadObject(ts)
    ensures ts != [] && ts[0] == Mark(']') ==> ReadList(ts) == Some((List([]), ts[1..]))
    ensures ts != [] && ts[0] == Mark('}') ==> ReadObject(ts) == Some((Object([]), ts[1..]))
  {
    assert ([Mark('[')] + ts)[1..] == ts && ([Mark('{')] + ts)[1..] == ts;
  }

  /** No value starts with an end. */
  lemma Opens(v: Json)
    ensures Tokens(v) != [] && Tokens(v)[0] != Mark(']') && Tokens(v)[0] != Mark('}') && Tokens(v)[0] != Mark(',')
  {
  }

  /** The reader inverts the printer on every value, whatever follows it. */
  lemma {:induction false} ValueReads(v: Json, rest: seq<Token>)
    requires WellFormed(v)
    ensures ReadValue(Tokens(v) + rest) == Some((v, rest))
    decreases v, 1
  {
    match v
    case List(items) => ListReads(items, rest);
    case Object(ms) => ObjectReads(ms, rest);
    case _ => assert (Tokens(v) + rest)[1..] == rest;
  }

  lemma Regrouped4<T>(a: seq<T>, b: seq<T>, c: seq<T>, d: seq<T>)
    ensures (([] + a) + b + c) + d == a + (b + (c + d))
    ensures (a + b + c) + d == a + (b + (c + d))
  {
  }

  lemma WholeList(items: seq<Json>, rest: seq<Token>)
    ensures Tokens(List(items)) + rest == [Mark('[')] + ItemsAfter(items, 0, rest)
    ensures items != [] ==> ItemsAfter(items, 0, rest) == ItemsText(items, 0, rest)
  {
    Regrouped4([Mark('[')], ItemTokens(items, 0), [Mark(']')], rest);
    if items != [] {
      assert ItemTokens(items, 0) == Tokens(items[0]) + ItemTokens(items, 1);
      Regrouped4([], Tokens(items[0]), ItemTokens(items, 1), [Mark(']')] + rest);
    }
  }

  lemma WholeObject(ms: seq<Member>, rest: seq<Token>)
    ensures Tokens(Object(ms)) + rest == [Mark('{')] + MembersAfter(ms, 0, rest)
    ensures ms != [] ==> MembersAfter(ms, 0, rest) == MembersText(ms, 0, rest)
  {
    Regrouped4([Mark('{')], MemberTokens(ms, 0), [Mark('}')], rest);
    if ms != [] {
      var name := [Text(ms[0].name), Mark(':')];
      assert MemberTokens(ms, 0) == ([] + name) + Tokens(ms[0].value) + MemberTokens(ms, 1);
      Regrouped4(name, Tokens(ms[0].value), MemberTokens(ms, 1), [Mark('}')] + rest);
    }
  }

  lemma ListReads(items: seq<Json>, rest: seq<Token>)
    requires forall k :: 0 <= k < |items| ==> WellFormed(items[k])
    ensures ReadValue(Tokens(List(items)) + rest) == Some((List(items), rest))
    decreases items, |items| + 1, 1
  {
    var inner := ItemsAfter(items, 0, rest);
    WholeList(items, rest);
    OnMark(inner);
    if items == [] {
      assert inner[1..] == rest;
    } else {
      Opens(items[0]);
      ItemsRead(items, 0, rest);
      assert items[0..] == items;
    }
  }

  lemma {:induction false} ItemsRead(items: seq<Json>, i: nat, rest: seq<Token>)
    requires i < |items| && forall k :: 0 <= k < |items| ==> WellFormed(items[k])
    ensures ReadItems(ItemsText(items, i, rest)) == Some((items[i..], rest))
    decreases items, |items| - i, 0
  {
    var after := ItemsAfter(items, i + 1, rest);
    ItemsAfterIs(items, i + 1, rest);
    ValueReads(items[i], after);
    assert items[i..] == [items[i]] + items[i + 1..];
    if i + 1 == |items| {
      assert items[i..] == [items[i]];
      OnItem(ItemsText(items, i, rest), items[i], [], [], rest);
    } else {
      ItemsRead(items, i + 1, rest);
      OnItem(ItemsText(items, i, rest), items[i], ItemsText(items, i + 1, rest), items[i + 1..], rest);
    }
  }

  lemma ObjectReads(ms: seq<Member>, rest: seq<Token>)
    requires forall k :: 0 <= k < |ms| ==> WellFormed(ms[k].value)
    ensures ReadValue(Tokens(Object(ms)) + rest) == Some((Object(ms), rest))
    decreases ms, |ms| + 1, 1
  {
    var inner := MembersAfter(ms, 0, rest);
    WholeObject(ms, rest);
    OnMark(inner);
    if ms == [] {
      assert inner[1..] == rest;
    } else {
      MembersRead(ms, 0, rest);
      assert ms[0..] == ms;
    }
  }

  lemma {:induction false} MembersRead(ms: seq<Member>, i: nat, rest: seq<Token>)
    requires i < |ms| && forall k :: 0 <= k < |ms| ==> WellFormed(ms[k].value)
    ensures ReadMembers(MembersText(ms, i, rest)) == Some((ms[i..], rest))
    decreases ms, |ms| - i, 0
  {
    var after := MembersAfter(ms, i + 1, rest);
    MembersAfterIs(ms, i + 1, rest);
    ValueReads(ms[i].value, after);
    assert ms[i..] == [ms[i]] + ms[i + 1..];
    var ts := Tokens(ms[i].value) + after;
    if i + 1 == |ms| {
      assert ms[i..] == [ms[i]];
      OnMember(ms[i].name, ts, ms[i].value, [], [], rest);
    } else {
      MembersRead(ms, i + 1, rest);
      OnMember(ms[i].name, ts, ms[i].value, MembersText(ms, i + 1, rest), ms[i + 1..], rest);
    }
  }

  // ---- no figure follows a figure ----

  lemma JoinSeparated(a: seq<Token>, b: seq<Token>)
    requires Separated(a) && Separated(b) && (a != [] && b != [] ==> !b[0].Figure? || !a[|a| - 1].Figure?)
    ensures Separated(a + b)
  {
  }

  lemma {:induction false} TokensSeparated(v: Json)
    requires WellFormed(v)
    ensures Separated(Tokens(v))
    decreases v, 1
  {
    match v
    case List(items) =>
      ItemsSeparated(items, 0);
      JoinSeparated([Mark('[')], ItemTokens(items, 0));
      JoinSeparated([Mark('[')] + ItemTokens(items, 0), [Mark(']')]);
    case Object(ms) =>
      MembersSeparated(ms, 0);
      JoinSeparated([Mark('{')], MemberTokens(ms, 0));
      JoinSeparated([Mark('{')] + MemberTokens(ms, 0), [Mark('}')]);
    case _ =>
  }

  lemma {:induction false} ItemsSeparated(items: seq<Json>, i: nat)
    requires i <= |items| && forall k :: 0 <= k < |items| ==> WellFormed(items[k])
    ensures Separated(ItemTokens(items, i))
    ensures i > 0 && ItemTokens(items, i) != [] ==> ItemTokens(items, i)[0] == Mark(',')
    decreases items, |items| - i, 0
  {
    if i < |items| {
      TokensSeparated(items[i]);
      ItemsSeparated(items, i + 1);
      JoinSeparated(Comma(i), Tokens(items[i]));
      JoinSeparated(Comma(i) + Tokens(items[i]), ItemTokens(items, i + 1));
    }
  }

  lemma {:induction false} MembersSeparated(ms: seq<Member>, i: nat)
    requires i <= |ms| && forall k :: 0 <= k < |ms| ==> WellFormed(ms[k].value)
    ensures Separated(MemberTokens(ms, i))
    ensures i > 0 && MemberTokens(ms, i) != [] ==> MemberTokens(ms, i)[0] == Mark(',')
    decreases ms, |ms| - i, 0
  {
    if i < |ms| {
      var start := Comma(i) + [Text(ms[i].name), Mark(':')];
      TokensSeparated(ms[i].value);
      MembersSeparated(ms, i + 1);
      JoinSeparated(start, Tokens(ms[i].value));
      JoinSeparated(start + Tokens(ms[i].value), MemberTokens(ms, i + 1));
    }
  }

  // ---- the canonical form ----

  /** Every printed value reads back as itself. */
  lemma PrintReads(v: Json)
    requires WellFormed(v)
    ensures ReadText(Print(v)) == Some(v)
  {
    TokensSeparated(v);
    var read := t => ReadNumber(t);
    forall n | FiniteNumber(n) ensures read(NumberText(n)) == n { NumberTextReads(n); }
    PiecesRead(Tokens(v), read);
    ValueReads(v, []);
    assert Tokens(v) + [] == Tokens(v);
  }

  /** The canonical form reads back as the value with its members in order, which means the same. */
  lemma CanonReads(v: Json)
    requires WellFormed(v)
    ensures ReadText(Canon(v)) == Some(Ordered(v)) && Meaning(Ordered(v)) == Meaning(v)
  {
    OrderedMeansTheSame(v);
    PrintReads(Ordered(v));
  }

  /** Equal canonical text is equal meaning: nothing is confused, and the order in which members were
      inserted never matters. */
  lemma CanonIsMeaning(v: Json, w: Json)
    requires WellFormed(v) && WellFormed(w)
    ensures Canon(v) == Canon(w) <==> Meaning(v) == Meaning(w)
  {
    CanonReads(v);
    CanonReads(w);
    if Meaning(v) == Meaning(w) { SameMeaningSameOrder(v, w); }
  }

  /** One object hash for two values of different meaning is a collision of the digest. */
  lemma HashBindsMeaning(digest: string -> string, v: Json, w: Json)
    requires WellFormed(v) && WellFormed(w) && digest(Canon(v)) == digest(Canon(w)) && Meaning(v) != Meaning(w)
    ensures exists s, t :: s != t && digest(s) == digest(t)
  {
    CanonIsMeaning(v, w);
  }
}

/** The canonicalizer as an object that appends to its output, piece by piece. */
module Writer {
  import opened Prelude
  import opened Decimal
  import opened Numbers
  import opened Json
  import opened Sorting
  import opened Canonical

  class Writer {
    var out: string

    constructor ()
      ensures out == ""
    {
      out := "";
    }

    method Append(s: string)
      modifies this
      ensures out == old(out) + s
    {
      out := out + s;
    }

    /** A string, escaped character by character between quotes. */
    method WriteString(s: string)
      modifies this
      ensures out == old(out) + Quoted(s)
      ensures out[..|old(out)|] == old(out) && WritesString(s, out[|old(out)|..])
    {
      Append("\"");
      for i := 0 to |s|
        invariant out + Escaped(s[i..]) == old(out) + "\"" + Escaped(s)
      {
        var c := s[i];
        ghost var before, rest := out, Escaped(s[i + 1..]);
        assert s[i..][0] == c && s[i..][1..] == s[i + 1..];
        if NamedEscape(c).Some? {
          Append(['\\', NamedEscape(c).value]);
        } else if c as int < 0x20 {
          Append(['\\', 'u', '0', '0', HexDigit(c as int / 16), HexDigit(c as int % 16)]);
        } else {
          Append([c]);
        }
        Regroup(before, Escape(c), rest);
      }
      assert out == old(out) + "\"" + Escaped(s) by { assert s[|s|..] == "" && out + "" == out; }
      Append("\"");
      Regroup(old(out), "\"", Escaped(s));
      Regroup(old(out), "\"" + Escaped(s), "\"");
      QuotedIsWritten(s);
      assert out == old(out) + Quoted(s);
      assert out[|old(out)|..] == Quoted(s);
    }

    /** A number that is not finite is refused; -0 is written as 0. */
    method WriteNumber(n: Num) returns (ok: bool)
      requires n.NonFinite? || FiniteNumber(n)
      modifies this
      ensures ok <==> FiniteNumber(n)
      ensures ok ==> out == old(out) + NumberText(n)
    {
      if n.NonFinite? { return false; }
      if n.Zero? {
        Append("0");
        return true;
      }
      if n.negative { Append("-"); }
      var digits, k := n.n.digits, |n.n.digits|;
      var point := n.n.exponent + k;
      if k <= point <= 21 {
        Append(digits + Zeros(point - k));
      } else if 0 < point <= 21 {
        Append(digits[..point] + "." + digits[point..]);
      } else if -6 < point <= 0 {
        Append("0." + Zeros(-point) + digits);
      } else {
        var mantissa := if k == 1 then digits else [digits[0]] + "." + digits[1..];
        Append(mantissa + "e" + PowerText(point - 1));
      }
      Regroup(old(out), "-", Layout(n.n));
      return true;
    }

    /** A value; it is refused exactly when some number in it is not finite. */
    method Write(v: Json) returns (ok: bool)
      requires Parsed(v)
      modifies this
      ensures ok <==> WellFormed(v)
      ensures ok ==> out == old(out) + Canon(v)
      decreases v, 2
    {
      match v {
        case Null => Append("null");
        case Truth(on) => Append(if on then "true" else "false");
        case Number(n) => ok := WriteNumber(n); SpellOne(Figure(n)); return;
        case Str(s) => WriteString(s);
        case List(items) => ok := WriteList(v); return;
        case Object(ms) => ok := WriteObject(v); return;
      }
      SpellOne(Tokens(v)[0]);
      return true;
    }

    /** One item, with a comma before it unless it is the first. */
    method WriteItem(v: Json, i: nat) returns (ok: bool)
      requires Parsed(v)
      modifies this
      ensures ok <==> WellFormed(v)
      ensures ok ==> out == old(out) + Spell(Comma(i)) + Spell(Tokens(Ordered(v)))
      decreases v, 3
    {
      if i > 0 { Append(","); }
      SpellComma(i);
      assert old(out) + "" == old(out);
      ok := Write(v);
    }

    method WriteList(v: Json) returns (ok: bool)
      requires v.List? && Parsed(v)
      modifies this
      ensures ok <==> WellFormed(v)
      ensures ok ==> out == old(out) + Canon(v)
      decreases v, 0
    {
      var items := v.items;
      ghost var os := Ordered(v).items;
      Append("[");
      for i := 0 to |items|
        invariant forall k :: 0 <= k < i ==> WellFormed(items[k])
        invariant ItemsLeft(old(out), out, os, i)
      {
        ghost var before := out;
        ok := WriteItem(items[i], i);
        if !ok { return false; }
        ItemWritten(old(out), before, out, os, i);
      }
      ItemsDone(old(out), out, os);
      Append("]");
      return true;
    }

    /** One member, with a comma before it unless it is the first. */
    method WriteMember(m: Member, i: nat) returns (ok: bool)
      requires Parsed(m.value)
      modifies this
      ensures ok <==> WellFormed(m.value)
      ensures ok ==> out == old(out) + Spell(Comma(i) + [Token.Text(m.name), Mark(':')]) + Spell(Tokens(Ordered(m.value)))
      decreases m
    {
      if i > 0 { Append(","); }
      WriteString(m.name);
      Append(":");
      MemberStarts(old(out), i, m.name);
      ok := Write(m.value);
    }

    /** The members of an object between its braces, in the order given. */
    method WriteMembers(v: Json, sorted: seq<Member>) returns (ok: bool)
      requires v.Object? && Parsed(v) && forall m :: m in sorted ==> m in v.members
      modifies this
      ensures ok <==> forall k :: 0 <= k < |sorted| ==> WellFormed(sorted[k].value)
      ensures ok ==> out == old(out) + Print(Object(OrderedMembers(sorted)))
      decreases v, 0
    {
      ghost var os := OrderedMembers(sorted);
      Append("{");
      for i := 0 to |sorted|
        invariant forall k :: 0 <= k < i ==> WellFormed(sorted[k].value)
        invariant MembersLeft(old(out), out, os, i)
      {
        ghost var before := out;
        assert sorted[i] in v.members;
        ok := WriteMember(sorted[i], i);
        if !ok { return false; }
        MemberWritten(old(out), before, out, os, i);
      }
      MembersDone(old(out), out, os);
      Append("}");
      return true;
    }

    /** An object, its members sorted by name. */
    method WriteObject(v: Json) returns (ok: bool)
      requires v.Object? && Parsed(v)
      modifies this
      ensures ok <==> WellFormed(v)
      ensures ok ==> out == old(out) + Canon(v)
      decreases v, 1
    {
      var sorted := Sort(v.members);
      SortCommutes(v.members);
      AllSorted(v.members);
      ok := WriteMembers(v, sorted);
    }
  }

  /** Once the items from this one on are written, the list is. */
  ghost predicate ItemsLeft(base: string, out: string, os: seq<Json>, i: nat)
    requires i <= |os|
  {
    out + Spell(ItemTokens(os, i)) == base + "[" + Spell(ItemTokens(os, 0))
  }

  lemma ItemWritten(base: string, before: string, out: string, os: seq<Json>, i: nat)
    requires i < |os| && ItemsLeft(base, before, os, i) && out == before + Spell(Comma(i)) + Spell(Tokens(os[i]))
    ensures ItemsLeft(base, out, os, i + 1)
  {
    StepSpells(before, Comma(i), Tokens(os[i]), ItemTokens(os, i + 1));
  }

  lemma ItemsDone(base: string, out: string, os: seq<Json>)
    requires ItemsLeft(base, out, os, |os|)
    ensures out + "]" == base + Print(List(os))
  {
    BracketSpells(base, out, '[', ItemTokens(os, 0), ']');
  }

  ghost predicate MembersLeft(base: string, out: string, os: seq<Member>, i: nat)
    requires i <= |os|
  {
    out + Spell(MemberTokens(os, i)) == base + "{" + Spell(MemberTokens(os, 0))
  }

  lemma MemberWritten(base: string, before: string, out: string, os: seq<Member>, i: nat)
    requires i < |os| && MembersLeft(base, before, os, i)
    requires out == before + Spell(Comma(i) + [Token.Text(os[i].name), Mark(':')]) + Spell(Tokens(os[i].value))
    ensures MembersLeft(base, out, os, i + 1)
  {
    StepSpells(before, Comma(i) + [Token.Text(os[i].name), Mark(':')], Tokens(os[i].value), MemberTokens(os, i + 1));
  }

  lemma MembersDone(base: string, out: string, os: seq<Member>)
    requires MembersLeft(base, out, os, |os|)
    ensures out + "}" == base + Print(Object(os))
  {
    BracketSpells(base, out, '{', MemberTokens(os, 0), '}');
  }

  lemma Regroup(a: string, b: string, c: string)
    ensures (a + b) + c == a + (b + c)
  {
  }

  lemma AllSorted(ms: seq<Member>)
    ensures (forall k :: 0 <= k < |ms| ==> WellFormed(Sort(ms)[k].value)) <==> (forall i :: 0 <= i < |ms| ==> WellFormed(ms[i].value))
  {
    assert forall i :: 0 <= i < |ms| ==> ms[i] in Sort(ms);
    assert forall k :: 0 <= k < |ms| ==> Sort(ms)[k] in ms;
  }

  lemma SpellOne(t: Token)
    ensures Spell([t]) == TokenText(t) && Spell([]) == ""
  {
    SpellFirst([t]);
    assert [t][1..] == [];
    assert TokenText(t) + "" == TokenText(t);
  }

  lemma SpellComma(i: nat)
    ensures Spell(Comma(i)) == if i > 0 then "," else ""
  {
    SpellOne(Mark(','));
  }

  lemma MemberStarts(before: string, i: nat, name: string)
    ensures (if i > 0 then before + "," else before) + Quoted(name) + ":"
         == before + Spell(Comma(i) + [Token.Text(name), Mark(':')])
  {
    var comma := if i > 0 then "," else "";
    SpellComma(i);
    SpellJoins(Comma(i), [Token.Text(name), Mark(':')]);
    SpellJoins([Token.Text(name)], [Mark(':')]);
    SpellOne(Token.Text(name));
    SpellOne(Mark(':'));
    assert [Token.Text(name), Mark(':')] == [Token.Text(name)] + [Mark(':')];
    Regroup(before + comma, Quoted(name), ":");
    Regroup(before, comma, Quoted(name) + ":");
    assert before + "" == before;
  }

  lemma StepSpells(before: string, start: seq<Token>, value: seq<Token>, rest: seq<Token>)
    ensures before + Spell(start) + Spell(value) + Spell(rest) == before + Spell(start + value + rest)
  {
    SpellJoins(start + value, rest);
    SpellJoins(start, value);
    Regroup(before, Spell(start), Spell(value));
    Regroup(before, Spell(start) + Spell(value), Spell(rest));
  }

  /** What has been written after an opening bracket, closed. */
  lemma BracketSpells(base: string, out: string, open: char, inner: seq<Token>, close: char)
    requires out + Spell([]) == base + [open] + Spell(inner)
    ensures out + [close] == base + Spell([Mark(open)] + inner + [Mark(close)])
  {
    SpellJoins([Mark(open)] + inner, [Mark(close)]);
    SpellJoins([Mark(open)], inner);
    SpellOne(Mark(open));
    SpellOne(Mark(close));
    assert out + "" == out;
    Regroup(base, [open], Spell(inner));
    Regroup(base, [open] + Spell(inner), [close]);
  }
}

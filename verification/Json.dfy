/** JSON values, what they mean, and the order of member names. */
module Json {
  import opened Prelude
  import opened Numbers

  /** A number with a canonical form is zero or a signed normal form; -0 is zero. */
  datatype Num = NonFinite | Zero | Signed(negative: bool, n: Shortest)

  datatype Member = Member(name: string, value: Json)

  /** A parsed value; an object keeps its members in the order they were inserted. */
  datatype Json = Null | Truth(on: bool) | Number(num: Num) | Str(s: string) | List(items: seq<Json>) | Object(members: seq<Member>)

  /** What a value means: an object is a finite map. */
  datatype Value = VNull | VTruth(on: bool) | VNumber(num: Num) | VStr(s: string) | VList(items: seq<Value>)
                 | VObject(members: map<string, Value>)

  predicate Distinct(ms: seq<Member>) {
    forall i, j :: 0 <= i < j < |ms| ==> ms[i].name != ms[j].name
  }

  predicate FiniteNumber(n: Num) {
    n.Zero? || (n.Signed? && Normal(n.n))
  }

  /** A value the canonical form exists for: finite numbers, and no name twice. */
  predicate WellFormed(v: Json) {
    match v
    case Number(n) => FiniteNumber(n)
    case List(items) => forall i :: 0 <= i < |items| ==> WellFormed(items[i])
    case Object(members) => Distinct(members) && forall i :: 0 <= i < |members| ==> WellFormed(members[i].value)
    case _ => true
  }

  /** A parsed value as it may arrive in memory: names are unique, but a number may not be finite. */
  predicate Parsed(v: Json) {
    match v
    case Number(n) => n.NonFinite? || FiniteNumber(n)
    case List(items) => forall i :: 0 <= i < |items| ==> Parsed(items[i])
    case Object(members) => Distinct(members) && forall i :: 0 <= i < |members| ==> Parsed(members[i].value)
    case _ => true
  }

  function Meaning(v: Json): Value {
    match v
    case Null => VNull
    case Truth(on) => VTruth(on)
    case Number(n) => VNumber(n)
    case Str(s) => VStr(s)
    case List(items) => VList(seq(|items|, i requires 0 <= i < |items| => Meaning(items[i])))
    case Object(members) => VObject(MeaningOf(members))
  }

  /** The map a list of members stands for; the last of two members with one name counts. */
  function MeaningOf(ms: seq<Member>): map<string, Value> {
    if ms == [] then map[] else MeaningOf(ms[..|ms| - 1])[ms[|ms| - 1].name := Meaning(ms[|ms| - 1].value)]
  }

  // ---- the order of names ----

  /** The UTF-16 code units of one scalar value. */
  function UnitsOf(c: char): (u: seq<int>)
    ensures 1 <= |u| <= 2 && forall i :: 0 <= i < |u| ==> 0 <= u[i] < 0x1_0000
    ensures |u| == 2 <==> c as int >= 0x1_0000
    ensures |u| == 2 ==> 0xD800 <= u[0] < 0xDC00
    ensures |u| == 1 ==> u[0] == c as int
  {
    var n := c as int;
    if n < 0x1_0000 then [n] else [0xD800 + (n - 0x1_0000) / 0x400, 0xDC00 + (n - 0x1_0000) % 0x400]
  }

  function Units(s: string): (u: seq<int>)
    ensures forall i :: 0 <= i < |u| ==> 0 <= u[i] < 0x1_0000
  {
    if s == "" then [] else UnitsOf(s[0]) + Units(s[1..])
  }

  predicate NumbersLt(a: seq<int>, b: seq<int>) {
    if b == [] then false
    else if a == [] then true
    else a[0] < b[0] || (a[0] == b[0] && NumbersLt(a[1..], b[1..]))
  }

  /** Member names are ordered by their UTF-16 code units. */
  predicate NameLt(a: string, b: string) {
    NumbersLt(Units(a), Units(b))
  }

  /** The big-endian octets of code units. */
  function Octets(u: seq<int>): seq<int> {
    if u == [] then [] else [u[0] / 0x100, u[0] % 0x100] + Octets(u[1..])
  }

  /** Sorting by UTF-16-BE octets sorts by code units. */
  lemma {:induction false} OctetOrderIsUnitOrder(a: seq<int>, b: seq<int>)
    requires forall i :: 0 <= i < |a| ==> 0 <= a[i] < 0x1_0000
    requires forall i :: 0 <= i < |b| ==> 0 <= b[i] < 0x1_0000
    ensures NumbersLt(Octets(a), Octets(b)) <==> NumbersLt(a, b)
  {
    if a != [] && b != [] {
      OctetOrderIsUnitOrder(a[1..], b[1..]);
      assert Octets(a)[1..][1..] == Octets(a[1..]) && Octets(b)[1..][1..] == Octets(b[1..]);
    }
  }

  lemma {:induction false} NumbersTotal(a: seq<int>, b: seq<int>)
    ensures NumbersLt(a, b) || a == b || NumbersLt(b, a)
    ensures !(NumbersLt(a, b) && NumbersLt(b, a)) && !NumbersLt(a, a)
  {
    if a != [] && b != [] {
      NumbersTotal(a[1..], b[1..]);
      if a[0] == b[0] { assert a == [a[0]] + a[1..] && b == [b[0]] + b[1..]; }
    }
    if a != [] { NumbersTotal(a[1..], a[1..]); }
  }

  lemma {:induction false} NumbersTransitive(a: seq<int>, b: seq<int>, c: seq<int>)
    requires NumbersLt(a, b) && NumbersLt(b, c)
    ensures NumbersLt(a, c)
  {
    if a != [] && a[0] == b[0] && b[0] == c[0] { NumbersTransitive(a[1..], b[1..], c[1..]); }
  }

  /** A name is determined by its code units. */
  lemma {:induction false} UnitsDetermine(a: string, b: string)
    requires Units(a) == Units(b)
    ensures a == b
  {
    if a != "" && b != "" {
      var u, w := UnitsOf(a[0]), UnitsOf(b[0]);
      assert Units(a)[0] == u[0] && Units(b)[0] == w[0];
      SameLead(a[0], b[0], Units(a), Units(b));
      assert Units(a)[|u|..] == Units(a[1..]) && Units(b)[|w|..] == Units(b[1..]);
      UnitsDetermine(a[1..], b[1..]);
      assert a == [a[0]] + a[1..] && b == [b[0]] + b[1..];
    }
  }

  lemma SameLead(c: char, d: char, x: seq<int>, y: seq<int>)
    requires x == y && UnitsOf(c) <= x && UnitsOf(d) <= y
    ensures c == d
  {
    var u, w := UnitsOf(c), UnitsOf(d);
    assert u[0] == x[0] && w[0] == y[0];
    if |u| == 2 && |w| == 2 { assert u[1] == x[1] && w[1] == y[1]; }
  }

  /** The order of names is total: of two different names exactly one comes first. */
  lemma NameOrderIsTotal(a: string, b: string)
    ensures a != b ==> (NameLt(a, b) <==> !NameLt(b, a))
    ensures !NameLt(a, a)
  {
    NumbersTotal(Units(a), Units(b));
    NumbersTotal(Units(a), Units(a));
    if Units(a) == Units(b) { UnitsDetermine(a, b); }
  }

  /** How it differs from the order of code points: only where a supplementary character meets one of
      U+E000 to U+FFFF at the first difference. */
  lemma {:induction false} NameOrderAgainstCodePoints(prefix: string, c: char, a: string, d: char, b: string)
    requires c != d
    ensures (NameLt(prefix + [c] + a, prefix + [d] + b) <==> LexLt(prefix + [c] + a, prefix + [d] + b))
       <==> !(c as int >= 0x1_0000 && 0xE000 <= d as int < 0x1_0000) && !(d as int >= 0x1_0000 && 0xE000 <= c as int < 0x1_0000)
  {
    var x, y := prefix + [c] + a, prefix + [d] + b;
    if prefix == "" {
      assert x[0] == c && y[0] == d && x[1..] == a && y[1..] == b;
      FirstUnitsDecide(c, Units(a), d, Units(b));
    } else {
      NameOrderAgainstCodePoints(prefix[1..], c, a, d, b);
      assert x[1..] == prefix[1..] + [c] + a && y[1..] == prefix[1..] + [d] + b;
      SameFirst(UnitsOf(prefix[0]), Units(x[1..]), Units(y[1..]));
    }
  }

  lemma SameFirst(u: seq<int>, x: seq<int>, y: seq<int>)
    requires 1 <= |u| <= 2
    ensures NumbersLt(u + x, u + y) <==> NumbersLt(x, y)
  {
    assert (u + x)[1..] == u[1..] + x && (u + y)[1..] == u[1..] + y;
    if |u| == 1 {
      assert u[1..] + x == x && u[1..] + y == y;
    } else {
      assert (u[1..] + x)[1..] == x && (u[1..] + y)[1..] == y;
    }
  }

  lemma FirstUnitsDecide(c: char, x: seq<int>, d: char, y: seq<int>)
    requires c != d
    ensures var u, w := UnitsOf(c), UnitsOf(d);
      NumbersLt(u + x, w + y) <==> if |u| == |w| then c < d else u[0] < w[0]
  {
    var u, w := UnitsOf(c), UnitsOf(d);
    assert (u + x)[1..] == u[1..] + x && (w + y)[1..] == w[1..] + y;
    if |u| == 2 && |w| == 2 {
      assert (u[1..] + x)[0] == u[1] && (w[1..] + y)[0] == w[1];
    }
  }
}

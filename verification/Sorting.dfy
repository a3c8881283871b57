/** Members in canonical order. */
module Sorting {
  import opened Prelude
  import opened Json

  predicate InOrder(ms: seq<Member>) {
    forall i, j :: 0 <= i < j < |ms| ==> NameLt(ms[i].name, ms[j].name)
  }

  function Insert(m: Member, ms: seq<Member>): (r: seq<Member>)
    ensures forall x :: x in r <==> x == m || x in ms
    ensures |r| == |ms| + 1
  {
    if ms == [] || NameLt(m.name, ms[0].name) then [m] + ms else [ms[0]] + Insert(m, ms[1..])
  }

  function Sort(ms: seq<Member>): (r: seq<Member>)
    ensures forall x :: x in r <==> x in ms
    ensures |r| == |ms|
  {
    if ms == [] then [] else Insert(ms[|ms| - 1], Sort(ms[..|ms| - 1]))
  }

  lemma NameLtTransitive(a: string, b: string, c: string)
    requires NameLt(a, b) && NameLt(b, c)
    ensures NameLt(a, c)
  {
    NumbersTransitive(Units(a), Units(b), Units(c));
  }

  /** A member put before an ordered list that it precedes. */
  lemma PrependKeepsOrder(m: Member, ms: seq<Member>)
    requires InOrder(ms) && forall x :: x in ms ==> NameLt(m.name, x.name)
    ensures InOrder([m] + ms)
  {
    var r := [m] + ms;
    forall i, j | 0 <= i < j < |r| ensures NameLt(r[i].name, r[j].name) {
      assert r[j] == ms[j - 1] && ms[j - 1] in ms;
    }
  }

  lemma {:induction false} InsertKeepsOrder(m: Member, ms: seq<Member>)
    requires InOrder(ms) && forall x :: x in ms ==> x.name != m.name
    ensures InOrder(Insert(m, ms))
  {
    if ms != [] {
      NameOrderIsTotal(m.name, ms[0].name);
      if NameLt(m.name, ms[0].name) {
        forall x | x in ms ensures NameLt(m.name, x.name) {
          var j :| 0 <= j < |ms| && ms[j] == x;
          if j > 0 { NameLtTransitive(m.name, ms[0].name, x.name); }
        }
        PrependKeepsOrder(m, ms);
      } else {
        InsertKeepsOrder(m, ms[1..]);
        forall x | x in Insert(m, ms[1..]) ensures NameLt(ms[0].name, x.name) {
          if x != m {
            var k :| 0 <= k < |ms[1..]| && ms[1..][k] == x;
            assert ms[k + 1] == x;
          }
        }
        PrependKeepsOrder(ms[0], Insert(m, ms[1..]));
      }
    }
  }

  lemma {:induction false} SortOrders(ms: seq<Member>)
    requires Distinct(ms)
    ensures InOrder(Sort(ms))
  {
    if ms != [] {
      var last, before := ms[|ms| - 1], ms[..|ms| - 1];
      SortOrders(before);
      forall x | x in Sort(before) ensures x.name != last.name {
        var i :| 0 <= i < |before| && before[i] == x;
      }
      InsertKeepsOrder(last, Sort(before));
    }
  }

  /** Members in order are determined by which members there are. */
  lemma {:induction false} OrderIsUnique(a: seq<Member>, b: seq<Member>)
    requires InOrder(a) && InOrder(b) && forall x :: x in a <==> x in b
    ensures a == b
    decreases |a|
  {
    HoldsItsFirst(b);
    if a != [] {
      assert a[0] in a;
      FirstIsFirst(a, b);
      forall x ensures x in a[1..] <==> x in b[1..] {
        TailHolds(a, x);
        TailHolds(b, x);
      }
      OrderIsUnique(a[1..], b[1..]);
      assert a == [a[0]] + a[1..] && b == [b[0]] + b[1..];
    }
  }

  lemma HoldsItsFirst(a: seq<Member>)
    ensures a == [] || a[0] in a
  {
  }

  lemma TailHolds(a: seq<Member>, x: Member)
    requires a != [] && InOrder(a)
    ensures x in a[1..] <==> x in a && x != a[0]
  {
    if x in a[1..] {
      var i :| 0 <= i < |a[1..]| && a[1..][i] == x;
      NameOrderIsTotal(a[0].name, a[0].name);
    }
    if x in a && x != a[0] {
      var i :| 0 <= i < |a| && a[i] == x;
      assert a[1..][i - 1] == x;
    }
  }

  lemma FirstIsFirst(a: seq<Member>, b: seq<Member>)
    requires a != [] && InOrder(a) && InOrder(b) && a[0] in b && (b != [] ==> b[0] in a)
    ensures b != [] && a[0] == b[0]
  {
    var i :| 0 <= i < |b| && b[i] == a[0];
    var j :| 0 <= j < |a| && a[j] == b[0];
    NameOrderIsTotal(a[0].name, b[0].name);
  }

  lemma {:induction false} InOrderIsDistinct(ms: seq<Member>)
    requires InOrder(ms)
    ensures Distinct(ms)
  {
    forall i, j | 0 <= i < j < |ms| ensures ms[i].name != ms[j].name {
      NameOrderIsTotal(ms[i].name, ms[i].name);
    }
  }

  // ---- a value with its members in order, at every level ----

  function Ordered(v: Json): Json {
    match v
    case List(items) => List(seq(|items|, i requires 0 <= i < |items| => Ordered(items[i])))
    case Object(members) => Object(Sort(OrderedMembers(members)))
    case _ => v
  }

  function OrderedMembers(ms: seq<Member>): (r: seq<Member>)
    ensures |r| == |ms|
    ensures forall i :: 0 <= i < |ms| ==> r[i] == Member(ms[i].name, Ordered(ms[i].value))
  {
    seq(|ms|, i requires 0 <= i < |ms| => Member(ms[i].name, Ordered(ms[i].value)))
  }

  /** Sorting by name does not look at values. */
  lemma {:induction false} SortCommutes(ms: seq<Member>)
    ensures Sort(OrderedMembers(ms)) == OrderedMembers(Sort(ms))
  {
    if ms != [] {
      var last, before := ms[|ms| - 1], ms[..|ms| - 1];
      SortCommutes(before);
      assert OrderedMembers(ms)[..|ms| - 1] == OrderedMembers(before);
      InsertCommutes(last, Sort(before));
    }
  }

  lemma {:induction false} InsertCommutes(m: Member, ms: seq<Member>)
    ensures Insert(Member(m.name, Ordered(m.value)), OrderedMembers(ms)) == OrderedMembers(Insert(m, ms))
  {
    if ms != [] && !NameLt(m.name, ms[0].name) {
      InsertCommutes(m, ms[1..]);
      assert OrderedMembers(ms)[1..] == OrderedMembers(ms[1..]);
      assert OrderedMembers([ms[0]] + Insert(m, ms[1..])) == [OrderedMembers(ms)[0]] + OrderedMembers(Insert(m, ms[1..]));
    }
  }

  // ---- the map a list of members stands for ----

  lemma {:induction false} MeaningHas(ms: seq<Member>, name: string)
    requires Distinct(ms)
    ensures name in MeaningOf(ms) <==> exists i :: 0 <= i < |ms| && ms[i].name == name
    ensures forall i :: 0 <= i < |ms| && ms[i].name == name ==> MeaningOf(ms)[name] == Meaning(ms[i].value)
  {
    if ms != [] {
      var before := ms[..|ms| - 1];
      MeaningHas(before, name);
      forall i | 0 <= i < |before| ensures before[i] == ms[i] {}
    }
  }

  /** Member for member the same meanings, in any order: the same map. */
  lemma SameMembersSameMap(a: seq<Member>, b: seq<Member>)
    requires Distinct(a) && Distinct(b)
    requires forall i :: 0 <= i < |a| ==> exists j :: 0 <= j < |b| && SameMember(a[i], b[j])
    requires forall j :: 0 <= j < |b| ==> exists i :: 0 <= i < |a| && SameMember(a[i], b[j])
    ensures MeaningOf(a) == MeaningOf(b)
  {
    forall name ensures name in MeaningOf(a) <==> name in MeaningOf(b) {
      MeaningHas(a, name);
      MeaningHas(b, name);
      if i :| 0 <= i < |a| && a[i].name == name {
        var j :| 0 <= j < |b| && SameMember(a[i], b[j]);
      }
      if j :| 0 <= j < |b| && b[j].name == name {
        var i :| 0 <= i < |a| && SameMember(a[i], b[j]);
      }
    }
    forall name | name in MeaningOf(a) ensures MeaningOf(a)[name] == MeaningOf(b)[name] {
      MeaningHas(a, name);
      MeaningHas(b, name);
      var i :| 0 <= i < |a| && a[i].name == name;
      var j :| 0 <= j < |b| && SameMember(a[i], b[j]);
    }
  }

  predicate SameMember(m: Member, n: Member) {
    m.name == n.name && Meaning(m.value) == Meaning(n.value)
  }

  /** Ordering a value changes neither its meaning nor that it is well-formed. */
  lemma {:induction false} OrderedMeansTheSame(v: Json)
    requires WellFormed(v)
    ensures Meaning(Ordered(v)) == Meaning(v) && WellFormed(Ordered(v))
  {
    match v
    case List(items) =>
      forall i | 0 <= i < |items| ensures Meaning(Ordered(items[i])) == Meaning(items[i]) && WellFormed(Ordered(items[i])) {
        OrderedMeansTheSame(items[i]);
      }
    case Object(ms) =>
      forall i | 0 <= i < |ms| ensures Meaning(Ordered(ms[i].value)) == Meaning(ms[i].value) && WellFormed(Ordered(ms[i].value)) {
        OrderedMeansTheSame(ms[i].value);
      }
      OrderedMembersMeanTheSame(ms);
    case _ =>
  }

  /** A sorted member is one of the members, with its value ordered. */
  lemma SortedMember(ms: seq<Member>, m: Member) returns (j: nat)
    requires m in Sort(OrderedMembers(ms))
    ensures j < |ms| && m == Member(ms[j].name, Ordered(ms[j].value))
  {
    assert m in OrderedMembers(ms);
    j :| 0 <= j < |OrderedMembers(ms)| && OrderedMembers(ms)[j] == m;
  }

  lemma OrderedMembersMeanTheSame(ms: seq<Member>)
    requires Distinct(ms)
    requires forall i :: 0 <= i < |ms| ==> Meaning(Ordered(ms[i].value)) == Meaning(ms[i].value) && WellFormed(Ordered(ms[i].value))
    ensures WellFormed(Object(Sort(OrderedMembers(ms)))) && MeaningOf(Sort(OrderedMembers(ms))) == MeaningOf(ms)
  {
    var r := Sort(OrderedMembers(ms));
    SortOrders(OrderedMembers(ms));
    InOrderIsDistinct(r);
    forall i | 0 <= i < |r| ensures WellFormed(r[i].value) { var j := SortedMember(ms, r[i]); }
    OrderedMembersSameMap(ms, r);
  }

  lemma OrderedMembersSameMap(ms: seq<Member>, r: seq<Member>)
    requires Distinct(ms) && r == Sort(OrderedMembers(ms)) && Distinct(r)
    requires forall i :: 0 <= i < |ms| ==> Meaning(Ordered(ms[i].value)) == Meaning(ms[i].value)
    ensures MeaningOf(r) == MeaningOf(ms)
  {
    forall i | 0 <= i < |r| ensures exists j :: 0 <= j < |ms| && SameMember(r[i], ms[j]) {
      var j := SortedMember(ms, r[i]);
      assert SameMember(r[i], ms[j]);
    }
    forall j | 0 <= j < |ms| ensures exists i :: 0 <= i < |r| && SameMember(r[i], ms[j]) {
      assert OrderedMembers(ms)[j] in r;
      var i :| 0 <= i < |r| && r[i] == OrderedMembers(ms)[j];
      assert SameMember(r[i], ms[j]);
    }
    SameMembersSameMap(r, ms);
  }

  /** Values that mean the same have one ordered form, however their members were inserted. */
  lemma {:induction false} SameMeaningSameOrder(a: Json, b: Json)
    requires WellFormed(a) && WellFormed(b) && Meaning(a) == Meaning(b)
    ensures Ordered(a) == Ordered(b)
  {
    match a
    case List(items) =>
      var others := b.items;
      forall i | 0 <= i < |items| ensures Ordered(items[i]) == Ordered(others[i]) {
        assert Meaning(a).items[i] == Meaning(b).items[i];
        SameMeaningSameOrder(items[i], others[i]);
      }
      assert |items| == |Meaning(a).items| == |others|;
    case Object(ms) =>
      var ns := b.members;
      forall i, j | 0 <= i < |ms| && 0 <= j < |ns| && ms[i].name == ns[j].name
        ensures Ordered(ms[i].value) == Ordered(ns[j].value)
      {
        MeaningHas(ms, ms[i].name);
        MeaningHas(ns, ns[j].name);
        SameMeaningSameOrder(ms[i].value, ns[j].value);
      }
      SameMapSameOrder(ms, ns);
    case _ =>
  }

  lemma SameMapSameOrder(ms: seq<Member>, ns: seq<Member>)
    requires Distinct(ms) && Distinct(ns) && MeaningOf(ms) == MeaningOf(ns)
    requires forall i, j :: 0 <= i < |ms| && 0 <= j < |ns| && ms[i].name == ns[j].name ==>
      Ordered(ms[i].value) == Ordered(ns[j].value)
    ensures Sort(OrderedMembers(ms)) == Sort(OrderedMembers(ns))
  {
    var os, ps := OrderedMembers(ms), OrderedMembers(ns);
    forall x | x in os ensures x in ps {
      var i :| 0 <= i < |os| && os[i] == x;
      MeaningHas(ms, x.name);
      MeaningHas(ns, x.name);
      var j :| 0 <= j < |ns| && ns[j].name == x.name;
      assert ps[j] == x;
    }
    forall x | x in ps ensures x in os {
      var j :| 0 <= j < |ps| && ps[j] == x;
      MeaningHas(ms, x.name);
      MeaningHas(ns, x.name);
      var i :| 0 <= i < |ms| && ms[i].name == x.name;
      assert os[i] == x;
    }
    SortOrders(os);
    SortOrders(ps);
    OrderIsUnique(Sort(os), Sort(ps));
  }
}

/** Read aggregation: reads fold into windows, a bound or a deadline closes a window, and a closed
    window is sealed into one aggregate record.
 */
module Windows {
  import opened Prelude

  datatype WindowKey = WindowKey(stream: string, subjectKey: string, mandateRef: string, policyVersion: string)

  datatype Read = Read(action: string, argsHash: string, at: string)

  /** A window as the reads folded into it, in order. */
  datatype Folding = Folding(key: WindowKey, from: string, folds: seq<Read>)

  /** The body of an aggregate record. */
  datatype Aggregate = Aggregate(key: WindowKey, from: string, to: string, total: nat, byAction: map<string, nat>,
                                 samples: seq<string>)

  // ---- what a window keeps of its folds ----

  function CountOf(folds: seq<Read>, action: string): nat {
    if folds == [] then 0
    else CountOf(folds[..|folds| - 1], action) + if folds[|folds| - 1].action == action then 1 else 0
  }

  /** The actions read, each with how often. */
  function Counts(folds: seq<Read>): (m: map<string, nat>)
    ensures forall a :: a in m ==> m[a] == CountOf(folds, a) && m[a] > 0
    ensures forall a :: a !in m ==> CountOf(folds, a) == 0
  {
    if folds == [] then map[]
    else Tallied(Counts(folds[..|folds| - 1]), folds[|folds| - 1].action)
  }

  function Tallied(counts: map<string, nat>, action: string): map<string, nat> {
    counts[action := (if action in counts then counts[action] else 0) + 1]
  }

  /** The positions sampled when at most `slots` are kept: the opening ones, and the latest. */
  function Sampled(count: nat, slots: nat): (r: seq<nat>)
    requires slots >= 1
    ensures |r| == if count <= slots then count else slots
    ensures forall k :: 0 <= k < |r| ==> r[k] < count
  {
    if count <= slots then seq(count, i => i) else seq(slots - 1, i => i) + [count - 1]
  }

  function HashesAt(folds: seq<Read>, positions: seq<nat>): (r: seq<string>)
    requires forall k :: 0 <= k < |positions| ==> positions[k] < |folds|
    ensures |r| == |positions|
    ensures forall k :: 0 <= k < |r| ==> r[k] == folds[positions[k]].argsHash
  {
    seq(|positions|, k requires 0 <= k < |positions| => folds[positions[k]].argsHash)
  }

  const SAMPLES: nat := 16

  function Cut<T>(s: seq<T>): seq<T> {
    if |s| <= SAMPLES then s else s[..SAMPLES]
  }

  function LastAt(w: Folding): string {
    if w.folds == [] then w.from else w.folds[|w.folds| - 1].at
  }

  function Seal(w: Folding, slots: nat): Aggregate
    requires slots >= 1
  {
    Aggregate(w.key, w.from, LastAt(w), |w.folds|, Counts(w.folds), Cut(HashesAt(w.folds, Sampled(|w.folds|, slots))))
  }

  /** Both ends of a window are sampled: the first read unless a single slot was overwritten, the
      latest unless more slots were filled than a record may carry. */
  lemma EndsAreSampled(count: nat, slots: nat)
    requires count >= 1 && slots >= 1
    ensures 0 in Cut(Sampled(count, slots)) <==> count == 1 || slots >= 2
    ensures count - 1 in Cut(Sampled(count, slots)) <==> count <= 16 || slots <= 16
  {
    var all := Sampled(count, slots);
    var cut := Cut(all);
    if count == 1 || slots >= 2 { assert cut[0] == 0; }
    if count <= SAMPLES || slots <= SAMPLES { assert cut[|cut| - 1] == count - 1; }
  }

  // ---- sums over a map ----

  /** The sum of a map's values. */
  ghost function Sum<K(!new)>(m: map<K, int>): int {
    if m == map[] then 0
    else
      var k :| k in m;
      m[k] + Sum(m - {k})
  }

  /** A sum does not depend on the order in which it is taken. */
  lemma {:induction false} SumTakesAny<K(!new)>(m: map<K, int>, k: K)
    requires k in m
    ensures Sum(m) == m[k] + Sum(m - {k})
    decreases |m|
  {
    var j :| j in m && Sum(m) == m[j] + Sum(m - {j});
    if j != k {
      SumTakesAny(m - {j}, k);
      SumTakesAny(m - {k}, j);
      assert m - {j} - {k} == m - {k} - {j};
    }
  }

  lemma SumOfUpdate<K(!new)>(m: map<K, int>, k: K, v: int)
    ensures Sum(m[k := v]) == Sum(m) + v - if k in m then m[k] else 0
  {
    SumTakesAny(m[k := v], k);
    assert m[k := v] - {k} == m - {k};
    if k in m { SumTakesAny(m, k); } else { assert m - {k} == m; }
  }

  /** The counts of a window add up to its reads, and there are no more actions than reads. */
  lemma {:induction false} CountsAddUp(folds: seq<Read>)
    ensures Sum(Counts(folds)) == |folds|
    ensures |Counts(folds)| <= |folds|
  {
    if folds != [] {
      var before, last := folds[..|folds| - 1], folds[|folds| - 1];
      CountsAddUp(before);
      SumOfUpdate(Counts(before), last.action, CountOf(folds, last.action));
      assert Counts(folds) == Counts(before)[last.action := CountOf(folds, last.action)];
      if last.action in Counts(before) { assert Counts(folds).Keys == Counts(before).Keys; }
      else { assert Counts(folds).Keys == Counts(before).Keys + {last.action}; }
    }
  }

  // ---- the aggregate rules ----

  const ACTIONS_MAX: nat := 1024

  /** What an envelope claims under the members the rules read; None is a value of the wrong type. */
  datatype Claim = Claim(classification: Option<string>, total: Option<int>, byAction: Option<map<string, Option<int>>>,
                         samples: Option<seq<string>>)

  function Plain(m: map<string, Option<int>>): map<string, int>
  {
    map a | a in m :: if m[a].Some? then m[a].value else 0
  }

  ghost predicate CountsHold(c: Claim) {
    && c.total.Some? && c.total.value >= 0
    && c.byAction.Some? && |c.byAction.value| <= 1024
    && (forall a :: a in c.byAction.value ==> c.byAction.value[a].Some? && c.byAction.value[a].value >= 0)
    && Sum(Plain(c.byAction.value)) == c.total.value
  }

  /** A well-formed aggregate. */
  ghost predicate Sound(c: Claim) {
    c.classification == Some("read") && CountsHold(c) && c.samples.Some? && 1 <= |c.samples.value| <= 16
  }

  method SumCounts(m: map<string, Option<int>>) returns (r: Result<int, string>)
    ensures r.Ok? <==> forall a :: a in m ==> m[a].Some? && m[a].value >= 0
    ensures r.Ok? ==> r.value == Sum(Plain(m))
    ensures r == Err("aggregate-count-negative") ==> exists a :: a in m && m[a].Some? && m[a].value < 0
    ensures r.Err? && r.error != "aggregate-count-negative" ==>
      r.error == "schema-type-mismatch" && exists a :: a in m && m[a].None?
  {
    var sum, rest := 0, m;
    while rest != map[]
      invariant forall a :: a in rest ==> a in m && rest[a] == m[a]
      invariant forall a :: a in m && a !in rest ==> m[a].Some? && m[a].value >= 0
      invariant sum == Sum(Plain(m)) - Sum(Plain(rest))
      decreases |rest|
    {
      var a :| a in rest;
      if m[a].None? { return Err("schema-type-mismatch"); }
      if m[a].value < 0 { return Err("aggregate-count-negative"); }
      SumTakesAny(Plain(rest), a);
      assert Plain(rest) - {a} == Plain(rest - {a});
      sum, rest := sum + m[a].value, rest - {a};
    }
    return Ok(sum);
  }

  /** The kernel's check of an aggregate: it accepts exactly the well-formed ones. */
  method ValidateAggregate(c: Claim) returns (fault: Option<string>)
    ensures fault.None? <==> Sound(c)
    ensures fault == Some("aggregate-cardinality") ==> c.byAction.Some? && |c.byAction.value| > ACTIONS_MAX
    ensures fault == Some("aggregate-count-mismatch") ==>
      c.total.Some? && c.byAction.Some? && c.total.value != Sum(Plain(c.byAction.value))
    ensures fault == Some("aggregate-sample-bounds") ==> CountsHold(c)
  {
    if c.classification != Some("read") { return Some("aggregate-class-not-read"); }
    if c.total.None? { return Some("schema-type-mismatch"); }
    if c.total.value < 0 { return Some("aggregate-count-negative"); }
    if c.byAction.None? { return Some("schema-type-mismatch"); }
    if |c.byAction.value| > ACTIONS_MAX { return Some("aggregate-cardinality"); }
    var sum := SumCounts(c.byAction.value);
    if sum.Err? { return Some(sum.error); }
    if sum.value != c.total.value { return Some("aggregate-count-mismatch"); }
    if c.samples.None? { return Some("schema-type-mismatch"); }
    if c.samples.value == [] || |c.samples.value| > SAMPLES { return Some("aggregate-sample-bounds"); }
    return None;
  }

  /** The gateway's check: the types of both counts first, and the form of hashes and instants last. */
  method Aggregated(c: Claim, isHash: string -> bool, isInstant: string -> bool, from: string, to: string)
    returns (fault: Option<string>)
    ensures fault.None? <==>
      Sound(c) && (forall k :: 0 <= k < |c.samples.value| ==> isHash(c.samples.value[k])) && isInstant(from) && isInstant(to)
  {
    if c.classification != Some("read") { return Some("aggregate-class-not-read"); }
    if c.byAction.None? { return Some("schema-type-mismatch"); }
    if c.total.None? { return Some("schema-type-mismatch"); }
    if c.total.value < 0 { return Some("aggregate-count-negative"); }
    if |c.byAction.value| > ACTIONS_MAX { return Some("aggregate-cardinality"); }
    var folded := SumCounts(c.byAction.value);
    if folded.Err? { return Some(folded.error); }
    if c.total.value != folded.value { return Some("aggregate-count-mismatch"); }
    if c.samples.None? || !(1 <= |c.samples.value| <= SAMPLES) { return Some("aggregate-sample-bounds"); }
    for k := 0 to |c.samples.value|
      invariant forall j :: 0 <= j < k ==> isHash(c.samples.value[j])
    {
      if !isHash(c.samples.value[k]) { return Some("encoding-bad-hash"); }
    }
    if !isInstant(from) || !isInstant(to) { return Some("encoding-bad-timestamp"); }
    return None;
  }

  function ClaimOf(a: Aggregate): Claim {
    Claim(Some("read"), Some(a.total), Some(map x | x in a.byAction :: Some(a.byAction[x] as int)), Some(a.samples))
  }

  /** A sealed window that holds a read is well-formed exactly when it names at most 1024 actions. */
  lemma SealedIsSound(w: Folding, slots: nat)
    requires w.folds != [] && slots >= 1
    ensures Sound(ClaimOf(Seal(w, slots))) <==> |Counts(w.folds)| <= 1024
  {
    var claim := ClaimOf(Seal(w, slots));
    CountsAddUp(w.folds);
    assert Plain(claim.byAction.value) == Counts(w.folds);
    assert claim.byAction.value.Keys == Counts(w.folds).Keys;
    assert |claim.byAction.value| == |claim.byAction.value.Keys| && |Counts(w.folds)| == |Counts(w.folds).Keys|;
  }

  /** As many reads as this, each of an action longer than the last. */
  function AllDifferent(n: nat): (folds: seq<Read>)
    ensures |folds| == n
  {
    if n == 0 then [] else AllDifferent(n - 1) + [Read(Long(n - 1), "", "")]
  }

  function Long(n: nat): (s: string)
    ensures |s| == n
  {
    if n == 0 then "" else Long(n - 1) + "a"
  }

  lemma NewActionCounts(folds: seq<Read>)
    requires folds != [] && folds[|folds| - 1].action !in Counts(folds[..|folds| - 1])
    ensures Counts(folds).Keys == Counts(folds[..|folds| - 1]).Keys + {folds[|folds| - 1].action}
    ensures |Counts(folds)| == |Counts(folds[..|folds| - 1])| + 1
  {
    var before := Counts(folds[..|folds| - 1]);
    assert Counts(folds).Keys == before.Keys + {folds[|folds| - 1].action};
    assert |Counts(folds)| == |Counts(folds).Keys| && |before| == |before.Keys|;
  }

  lemma OneMoreDifferent(folds: seq<Read>, read: Read)
    requires forall a :: a in Counts(folds) ==> |a| < |read.action|
    ensures |Counts(folds + [read])| == |Counts(folds)| + 1
    ensures forall a :: a in Counts(folds + [read]) ==> |a| <= |read.action|
  {
    assert (folds + [read])[..|folds|] == folds;
    NewActionCounts(folds + [read]);
  }

  lemma {:induction false} AllDifferentCounts(n: nat)
    ensures |Counts(AllDifferent(n))| == n
    ensures forall a :: a in Counts(AllDifferent(n)) ==> |a| < n
  {
    if n > 0 {
      AllDifferentCounts(n - 1);
      OneMoreDifferent(AllDifferent(n - 1), Read(Long(n - 1), "", ""));
    }
  }

  /** Every window of at most `max` reads seals into a well-formed record, exactly when `max` is at
      most 1024. */
  lemma BoundedWindowsPass(max: nat, slots: nat)
    requires slots >= 1
    ensures (forall w: Folding :: 1 <= |w.folds| <= max ==> Sound(ClaimOf(Seal(w, slots)))) <==> max <= 1024
  {
    if max <= ACTIONS_MAX {
      forall w: Folding | 1 <= |w.folds| <= max ensures Sound(ClaimOf(Seal(w, slots))) {
        CountsAddUp(w.folds);
        SealedIsSound(w, slots);
      }
    } else {
      var w := Folding(WindowKey("", "", "", ""), "", AllDifferent(max));
      AllDifferentCounts(max);
      SealedIsSound(w, slots);
      assert 1 <= |w.folds| <= max && !Sound(ClaimOf(Seal(w, slots)));
    }
  }
}

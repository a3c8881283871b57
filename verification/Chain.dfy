/** Hash-chain verification: the two range verifiers and the checkpoint verifier.

    Records are of any type `R`. A `View` says how a verifier reads one: its members, what the
    signature check answers, what the structural check answers, and its `id`. Nothing is assumed
    about `id`; where a result would need it to be collision-free, the collision is named instead.
 */
module Chain {
  import opened Prelude

  const U64_LIMIT: int := 0x1_0000_0000_0000_0000

  /** The `seq` member as it was received, before anything has validated it. */
  datatype SeqMember = Missing | Opaque | Flag(on: bool) | Integer(n: int)

  /** What verifying the signed object answers; `Malformed` is the kernel's structural code. */
  datatype Signature = Genuine | Forged | Malformed(code: string)

  datatype View<!R> = View(
    seqno: R -> SeqMember,
    stream: R -> string,
    prev: R -> Option<string>,
    signature: R -> Signature,
    shape: R -> Option<string>,
    id: R -> string)

  datatype Report = Report(head: string, count: nat, anchored: bool)

  datatype Failure = Failure(code: string, seqno: Option<int>)

  /** The two seq/prev-hash rules of the structural check, which both implementations apply. */
  ghost predicate PositionRules<R(!new)>(v: View<R>) {
    forall r: R :: v.shape(r).None? ==>
      && v.seqno(r).Integer?
      && 0 <= v.seqno(r).n <= 9_007_199_254_740_991
      && (v.seqno(r).n == 0 <==> v.prev(r).None?)
  }

  /** A record that passes on its own, wherever it stands. */
  predicate Sound<R>(v: View<R>, r: R, stream: string) {
    v.signature(r).Genuine? && v.shape(r).None? && v.stream(r) == stream
  }

  function SeqOf<R>(v: View<R>, r: R): int {
    match v.seqno(r) case Integer(n) => n case _ => 0
  }

  /** Record `k` of a range is well placed: contiguous, and naming its predecessor. */
  predicate Placed<R>(v: View<R>, records: seq<R>, anchor: Option<string>, k: nat)
    requires k < |records|
  {
    && SeqOf(v, records[k]) == SeqOf(v, records[0]) + k
    && (k > 0 ==> v.prev(records[k]) == Some(v.id(records[k - 1])))
    && (k == 0 && SeqOf(v, records[0]) > 0 && anchor.Some? ==> v.prev(records[0]) == anchor)
  }

  /** What it means for a range to verify: every record sound and well placed. */
  ghost predicate Accepts<R>(v: View<R>, records: seq<R>, stream: string, anchor: Option<string>) {
    && records != []
    && (forall k :: 0 <= k < |records| ==> Sound(v, records[k], stream))
    && (forall k :: 0 <= k < |records| ==> Placed(v, records, anchor, k))
  }

  function Head<R>(v: View<R>, records: seq<R>): string
    requires records != []
  {
    v.id(records[|records| - 1])
  }

  // ---- faults: the first thing wrong with a range, and how each implementation reports it ----

  datatype Fault = Signing(code: string) | Shape(code: string) | Stray | Duplicate | Gap | Unlinked

  /** The first rule record `k` breaks, in the order both verifiers check. */
  function FaultAt<R>(v: View<R>, records: seq<R>, stream: string, anchor: Option<string>, k: nat): Option<Fault>
    requires k < |records|
  {
    var r := records[k];
    var due := SeqOf(v, records[0]) + k;
    match v.signature(r)
    case Forged => Some(Signing("sig-invalid"))
    case Malformed(code) => Some(Signing(code))
    case Genuine =>
      if v.shape(r).Some? then Some(Shape(v.shape(r).value))
      else if v.stream(r) != stream then Some(Stray)
      else if SeqOf(v, r) < due then Some(Duplicate)
      else if SeqOf(v, r) > due then Some(Gap)
      else if !Placed(v, records, anchor, k) then Some(Unlinked)
      else None
  }

  /** Position of the first faulty record at or after `k`, or the length of the range. */
  function FirstFault<R>(v: View<R>, records: seq<R>, stream: string, anchor: Option<string>, k: nat): (n: nat)
    requires k <= |records|
    ensures k <= n <= |records|
    ensures forall i :: k <= i < n ==> FaultAt(v, records, stream, anchor, i).None?
    ensures n < |records| ==> FaultAt(v, records, stream, anchor, n).Some?
    decreases |records| - k
  {
    if k < |records| && FaultAt(v, records, stream, anchor, k).None?
    then FirstFault(v, records, stream, anchor, k + 1)
    else k
  }

  lemma FirstFaultUnique<R>(v: View<R>, records: seq<R>, stream: string, anchor: Option<string>, k: nat)
    requires k < |records|
    requires forall i :: 0 <= i < k ==> FaultAt(v, records, stream, anchor, i).None?
    requires FaultAt(v, records, stream, anchor, k).Some?
    ensures FirstFault(v, records, stream, anchor, 0) == k
  {
  }

  function FaultCode(f: Fault, structural: bool): string {
    match f
    case Signing(code) => if structural then code else "sig-invalid"
    case Shape(code) => code
    case Stray => "chain-stream-mismatch"
    case Duplicate => "chain-seq-duplicate"
    case Gap => "chain-seq-gap"
    case Unlinked => "chain-prev-hash-mismatch"
  }

  /** `record.get("seq")` kept when it is a Python `int`; a boolean is one. */
  function PythonSeq(s: SeqMember): Option<int> {
    match s
    case Integer(n) => Some(n)
    case Flag(on) => Some(if on then 1 else 0)
    case _ => None
  }

  /** `as_u64`: an integer in range, or nothing. */
  function RustSeq(s: SeqMember): Option<int> {
    match s
    case Integer(n) => if 0 <= n < U64_LIMIT then Some(n) else None
    case _ => None
  }

  /** A signature failure keeps an unusable position absent; a structural one reports it as 0. */
  function RustFaultSeq(f: Fault, s: SeqMember): Option<int> {
    if f.Signing? then RustSeq(s)
    else Some(match RustSeq(s) case Some(n) => n case None => 0)
  }

  function Anchored<R>(v: View<R>, records: seq<R>, anchor: Option<string>): bool
    requires records != []
  {
    SeqOf(v, records[0]) == 0 || anchor.Some?
  }

  function PythonVerdict<R>(v: View<R>, records: seq<R>, stream: string, anchor: Option<string>): Result<Report, Failure> {
    if records == [] then Err(Failure("chain-empty-range", None))
    else
      var k := FirstFault(v, records, stream, anchor, 0);
      if k == |records| then Ok(Report(Head(v, records), |records|, Anchored(v, records, anchor)))
      else
        Err(Failure(FaultCode(FaultAt(v, records, stream, anchor, k).value, false), PythonSeq(v.seqno(records[k]))))
  }

  function RustVerdict<R>(v: View<R>, records: seq<R>, stream: string, anchor: Option<string>): Result<Report, Failure> {
    if records == [] then Err(Failure("chain-empty-range", None))
    else
      var k := FirstFault(v, records, stream, anchor, 0);
      if k == |records| then Ok(Report(Head(v, records), |records|, Anchored(v, records, anchor)))
      else
        var f := FaultAt(v, records, stream, anchor, k).value;
        Err(Failure(FaultCode(f, true), RustFaultSeq(f, v.seqno(records[k]))))
  }

  /** No fault at `k` is exactly soundness and placement. */
  lemma NoFaultIffSoundAndPlaced<R>(v: View<R>, records: seq<R>, stream: string, anchor: Option<string>, k: nat)
    requires k < |records|
    ensures FaultAt(v, records, stream, anchor, k).None?
      <==> Sound(v, records[k], stream) && Placed(v, records, anchor, k)
  {
  }

  /** Either verifier says yes exactly on the ranges that verify, and reports head, count and anchor. */
  lemma VerdictMeansAccepts<R>(v: View<R>, records: seq<R>, stream: string, anchor: Option<string>)
    ensures PythonVerdict(v, records, stream, anchor).Ok? <==> Accepts(v, records, stream, anchor)
    ensures RustVerdict(v, records, stream, anchor).Ok? <==> Accepts(v, records, stream, anchor)
  {
    if records != [] {
      var k := FirstFault(v, records, stream, anchor, 0);
      forall i | 0 <= i < |records|
        ensures FaultAt(v, records, stream, anchor, i).None?
          <==> Sound(v, records[i], stream) && Placed(v, records, anchor, i)
      {
        NoFaultIffSoundAndPlaced(v, records, stream, anchor, i);
      }
    }
  }

  /** What both verifiers report about a range that verifies. */
  lemma AcceptedReport<R>(v: View<R>, records: seq<R>, stream: string, anchor: Option<string>)
    requires Accepts(v, records, stream, anchor)
    ensures var report := Report(Head(v, records), |records|, Anchored(v, records, anchor));
      PythonVerdict(v, records, stream, anchor) == Ok(report) && RustVerdict(v, records, stream, anchor) == Ok(report)
  {
    VerdictMeansAccepts(v, records, stream, anchor);
  }

  /** Both languages read this `seq` member as the same position. */
  predicate SamePosition(f: Fault, s: SeqMember) {
    match s
    case Integer(n) => 0 <= n < 18_446_744_073_709_551_616
    case Flag(on) => !f.Signing? && !on
    case _ => f.Signing?
  }

  /** The two verifiers answer alike on every range: same acceptance and report; same code unless
      the signature member itself is malformed; same failing `seq` exactly when that record's `seq`
      reads alike in both languages. */
  lemma VerifiersAgree<R>(v: View<R>, records: seq<R>, stream: string, anchor: Option<string>)
    ensures var p, r := PythonVerdict(v, records, stream, anchor), RustVerdict(v, records, stream, anchor);
      && (p.Ok? <==> r.Ok?)
      && (p.Ok? ==> p == r)
      && (p.Err? && records == [] ==> p == r)
      && (p.Err? && records != [] ==>
            var k := FirstFault(v, records, stream, anchor, 0);
            && (p.error.code == r.error.code
                <==> !(v.signature(records[k]).Malformed? && v.signature(records[k]).code != "sig-invalid"))
            && (p.error.seqno == r.error.seqno
                <==> SamePosition(FaultAt(v, records, stream, anchor, k).value, v.seqno(records[k]))))
  {
  }

  // ---- the two verifiers ----

  /** The gateway's verifier: positions are compared with `first_seq + index`. */
  method VerifyPython<R(!new)>(v: View<R>, records: seq<R>, stream: string, expectedPrev: Option<string>)
    returns (r: Result<Report, Failure>)
    requires PositionRules(v)
    ensures r == PythonVerdict(v, records, stream, expectedPrev)
    ensures r.Ok? <==> Accepts(v, records, stream, expectedPrev)
  {
    VerdictMeansAccepts(v, records, stream, expectedPrev);
    if records == [] {
      return Err(Failure("chain-empty-range", None));
    }
    var anchored := v.seqno(records[0]) in {Integer(0), Flag(false)} || expectedPrev.Some?;
    var previousId := expectedPrev;
    var firstSeq: Option<int> := None;
    for index := 0 to |records|
      invariant forall i :: 0 <= i < index ==> FaultAt(v, records, stream, expectedPrev, i).None?
      invariant previousId == if index == 0 then expectedPrev else Some(v.id(records[index - 1]))
      invariant firstSeq == if index == 0 then None else Some(SeqOf(v, records[0]))
      invariant index > 0 ==> v.shape(records[0]).None?
    {
      var record := records[index];
      var observed := PythonSeq(v.seqno(record));
      if !v.signature(record).Genuine? {
        FirstFaultUnique(v, records, stream, expectedPrev, index);
        return Err(Failure("sig-invalid", observed));
      }
      if v.shape(record).Some? {
        FirstFaultUnique(v, records, stream, expectedPrev, index);
        return Err(Failure(v.shape(record).value, observed));
      }
      if v.stream(record) != stream {
        FirstFaultUnique(v, records, stream, expectedPrev, index);
        return Err(Failure("chain-stream-mismatch", observed));
      }
      var seqno := v.seqno(record).n;
      if firstSeq.None? {
        firstSeq := Some(seqno);
      } else {
        var occupies := firstSeq.value + index;
        if seqno < occupies {
          FirstFaultUnique(v, records, stream, expectedPrev, index);
          return Err(Failure("chain-seq-duplicate", Some(seqno)));
        }
        if seqno > occupies {
          FirstFaultUnique(v, records, stream, expectedPrev, index);
          return Err(Failure("chain-seq-gap", Some(seqno)));
        }
      }
      if seqno > 0 && previousId.Some? && v.prev(record) != previousId {
        FirstFaultUnique(v, records, stream, expectedPrev, index);
        return Err(Failure("chain-prev-hash-mismatch", Some(seqno)));
      }
      previousId := Some(v.id(record));
    }
    r := Ok(Report(previousId.value, |records|, anchored));
  }

  lemma RustFailsAt<R>(v: View<R>, records: seq<R>, stream: string, anchor: Option<string>, k: nat)
    requires k < |records|
    requires forall i :: 0 <= i < k ==> FaultAt(v, records, stream, anchor, i).None?
    requires FaultAt(v, records, stream, anchor, k).Some?
    ensures var f := FaultAt(v, records, stream, anchor, k).value;
      RustVerdict(v, records, stream, anchor) == Err(Failure(FaultCode(f, true), RustFaultSeq(f, v.seqno(records[k]))))
  {
    FirstFaultUnique(v, records, stream, anchor, k);
  }

  lemma RustMeansAccepts<R>(v: View<R>, records: seq<R>, stream: string, anchor: Option<string>)
    ensures RustVerdict(v, records, stream, anchor).Ok? <==> Accepts(v, records, stream, anchor)
  {
    VerdictMeansAccepts(v, records, stream, anchor);
  }

  /** The kernel's verifier: linkage is a match on the predecessor and the claimed `prev-hash`.
      Its last branch, `chain-prev-hash-missing`, is proved unreachable. */
  method VerifyRust<R(!new)>(v: View<R>, envelopes: seq<R>, stream: string, expectedFirstPrev: Option<string>)
    returns (r: Result<Report, Failure>)
    requires PositionRules(v)
    ensures r == RustVerdict(v, envelopes, stream, expectedFirstPrev)
    ensures r.Ok? <==> Accepts(v, envelopes, stream, expectedFirstPrev)
  {
    RustMeansAccepts(v, envelopes, stream, expectedFirstPrev);
    if envelopes == [] {
      return Err(Failure("chain-empty-range", None));
    }
    var firstSeq := match RustSeq(v.seqno(envelopes[0])) case Some(n) => n case None => 0;
    var anchored := firstSeq == 0 || expectedFirstPrev.Some?;
    var previousId: Option<string> := None;
    for index := 0 to |envelopes|
      invariant forall i :: 0 <= i < index ==> FaultAt(v, envelopes, stream, expectedFirstPrev, i).None?
      invariant previousId == if index == 0 then None else Some(v.id(envelopes[index - 1]))
      invariant index > 0 ==> v.shape(envelopes[0]).None? && firstSeq == SeqOf(v, envelopes[0])
    {
      var current := envelopes[index];
      var observed := RustSeq(v.seqno(current));
      var seqno := match observed case Some(n) => n case None => 0;
      if !v.signature(current).Genuine? {
        RustFailsAt(v, envelopes, stream, expectedFirstPrev, index);
        var code := if v.signature(current).Malformed? then v.signature(current).code else "sig-invalid";
        return Err(Failure(code, observed));
      }
      if v.shape(current).Some? {
        RustFailsAt(v, envelopes, stream, expectedFirstPrev, index);
        return Err(Failure(v.shape(current).value, Some(seqno)));
      }
      if v.stream(current) != stream {
        RustFailsAt(v, envelopes, stream, expectedFirstPrev, index);
        return Err(Failure("chain-stream-mismatch", Some(seqno)));
      }
      var expectedSeq := firstSeq + index;
      if seqno != expectedSeq {
        RustFailsAt(v, envelopes, stream, expectedFirstPrev, index);
        return Err(Failure(if seqno < expectedSeq then "chain-seq-duplicate" else "chain-seq-gap", Some(seqno)));
      }
      match (previousId, v.prev(current)) {
        case (None, None) =>
        case (None, Some(claimed)) =>
          if expectedFirstPrev.Some? && claimed != expectedFirstPrev.value {
            RustFailsAt(v, envelopes, stream, expectedFirstPrev, index);
            return Err(Failure("chain-prev-hash-mismatch", Some(seqno)));
          }
        case (Some(actual), Some(claimed)) =>
          if claimed != actual {
            RustFailsAt(v, envelopes, stream, expectedFirstPrev, index);
            return Err(Failure("chain-prev-hash-mismatch", Some(seqno)));
          }
        case (Some(_), None) =>
          assert false;
      }
      previousId := Some(v.id(current));
    }
    r := Ok(Report(previousId.value, |envelopes|, anchored));
  }

  // ---- tamper evidence and composition ----

  /** A prefix of a range that verifies, verifies. */
  lemma AcceptsPrefix<R>(v: View<R>, records: seq<R>, stream: string, anchor: Option<string>, n: nat)
    requires Accepts(v, records, stream, anchor) && 0 < n <= |records|
    ensures Accepts(v, records[..n], stream, anchor)
  {
    forall k | 0 <= k < n
      ensures Sound(v, records[..n][k], stream) && Placed(v, records[..n], anchor, k)
    {
      assert Sound(v, records[k], stream) && Placed(v, records, anchor, k);
    }
  }

  /** Two different records with one `id`: what forging a history would have to produce. */
  ghost predicate Collision<R>(v: View<R>, x: R, y: R) {
    x != y && v.id(x) == v.id(y)
  }

  /** Tamper evidence: two ranges from genesis that verify with the same head are the same range,
      or they exhibit two distinct records with one id. */
  lemma {:induction false} SameHeadSameRange<R>(v: View<R>, a: seq<R>, b: seq<R>, s: string, t: string,
                                                x: Option<string>, y: Option<string>)
    requires Accepts(v, a, s, x) && Accepts(v, b, t, y)
    requires SeqOf(v, a[0]) == 0 && SeqOf(v, b[0]) == 0
    requires Head(v, a) == Head(v, b)
    ensures a == b || exists i, j :: 0 <= i < |a| && 0 <= j < |b| && Collision(v, a[i], b[j])
    decreases |a|
  {
    var m, n := |a| - 1, |b| - 1;
    assert Placed(v, a, x, m) && Placed(v, b, y, n);
    if a[m] != b[n] {
      assert Collision(v, a[m], b[n]);
    } else if m > 0 {
      AcceptsPrefix(v, a, s, x, m);
      AcceptsPrefix(v, b, t, y, n);
      SameHeadSameRange(v, a[..m], b[..n], s, t, x, y);
      if a[..m] != b[..n] {
        var i, j :| 0 <= i < m && 0 <= j < n && Collision(v, a[..m][i], b[..n][j]);
        assert Collision(v, a[i], b[j]);
      } else {
        assert a == a[..m] + [a[m]] && b == b[..n] + [b[n]];
      }
    }
  }

  /** Composition: a concatenation verifies exactly when its first part does and its second part
      does anchored at the first part's head, at the next position. */
  lemma ConcatenationVerifies<R(!new)>(v: View<R>, a: seq<R>, b: seq<R>, stream: string, anchor: Option<string>)
    requires PositionRules(v) && a != [] && b != []
    ensures Accepts(v, a + b, stream, anchor)
      <==> && Accepts(v, a, stream, anchor)
           && Accepts(v, b, stream, Some(Head(v, a)))
           && SeqOf(v, b[0]) == SeqOf(v, a[0]) + |a|
  {
    var c := a + b;
    if Accepts(v, c, stream, anchor) {
      AcceptsPrefix(v, c, stream, anchor, |a|);
      assert c[..|a|] == a;
      assert Placed(v, c, anchor, |a|);
      forall k | 0 <= k < |b|
        ensures Sound(v, b[k], stream) && Placed(v, b, Some(Head(v, a)), k)
      {
        assert c[|a| + k] == b[k];
        assert Sound(v, c[|a| + k], stream) && Placed(v, c, anchor, |a| + k);
      }
    }
    if Accepts(v, a, stream, anchor) && Accepts(v, b, stream, Some(Head(v, a)))
       && SeqOf(v, b[0]) == SeqOf(v, a[0]) + |a| {
      assert Sound(v, a[0], stream);
      forall k | 0 <= k < |c|
        ensures Sound(v, c[k], stream) && Placed(v, c, anchor, k)
      {
        if k < |a| {
          assert Sound(v, a[k], stream) && Placed(v, a, anchor, k);
        } else {
          assert Sound(v, b[k - |a|], stream) && Placed(v, b, Some(Head(v, a)), k - |a|);
        }
      }
    }
  }

  // ---- checkpoints ----

  /** The members of a checkpoint body; each is absent when missing or of the wrong type. */
  datatype Checkpoint = Checkpoint(stream: Option<string>, fromSeq: Option<int>, toSeq: Option<int>,
                                   count: Option<int>, head: Option<string>)

  predicate U64(o: Option<int>) {
    o.Some? ==> 0 <= o.value < 18_446_744_073_709_551_616
  }

  predicate WellTyped(c: Checkpoint) {
    U64(c.fromSeq) && U64(c.toSeq) && U64(c.count)
  }

  /** `to.saturating_sub(from) + 1`, the addition wrapping as unsigned 64-bit. */
  function Attested(fromSeq: int, toSeq: int): int {
    ((if toSeq > fromSeq then toSeq - fromSeq else 0) + 1) % U64_LIMIT
  }

  /** A checkpoint attests a range: every member present, the counts and the bounds as the range has
      them, and the head it names. */
  ghost predicate Attests<R>(v: View<R>, c: Checkpoint, range: seq<R>, anchor: Option<string>) {
    && c.stream.Some? && c.fromSeq.Some? && c.toSeq.Some? && c.count == Some(|range|) && c.head.Some?
    && Accepts(v, range, c.stream.value, anchor)
    && SeqOf(v, range[0]) == c.fromSeq.value
    && Attested(c.fromSeq.value, c.toSeq.value) == |range|
    && Head(v, range) == c.head.value
  }

  predicate Complete(body: Option<Checkpoint>) {
    && body.Some? && body.value.stream.Some? && body.value.fromSeq.Some? && body.value.toSeq.Some?
    && body.value.count.Some? && body.value.head.Some?
  }

  predicate Counted<R>(c: Checkpoint, range: seq<R>)
    requires Complete(Some(c))
  {
    c.count.value == Attested(c.fromSeq.value, c.toSeq.value) == |range|
  }

  /** What a refused checkpoint is refused for: its own members, the counts, the start, the range, the
      head, in that order. */
  function CheckpointFault<R>(v: View<R>, body: Option<Checkpoint>, range: seq<R>, anchor: Option<string>): string {
    if !Complete(body) then "schema-missing-member"
    else if !Counted(body.value, range) then "checkpoint-count-mismatch"
    else if range == [] || RustSeq(v.seqno(range[0])).None? then "schema-missing-member"
    else if RustSeq(v.seqno(range[0])) != body.value.fromSeq then "checkpoint-range-mismatch"
    else match RustVerdict(v, range, body.value.stream.value, anchor)
      case Err(failure) => failure.code
      case Ok(_) => "checkpoint-head-mismatch"
  }

  method VerifyCheckpoint<R(!new)>(v: View<R>, body: Option<Checkpoint>, range: seq<R>,
                                   expectedFirstPrev: Option<string>)
    returns (r: Result<Report, string>)
    requires PositionRules(v)
    requires body.Some? ==> WellTyped(body.value)
    requires |range| < U64_LIMIT
    ensures r.Ok? <==> body.Some? && Attests(v, body.value, range, expectedFirstPrev)
    ensures r.Err? ==> r.error == CheckpointFault(v, body, range, expectedFirstPrev)
    ensures r.Ok? ==> r.value == Report(body.value.head.value, |range|, Anchored(v, range, expectedFirstPrev))
  {
    if body.None? || body.value.stream.None? || body.value.fromSeq.None? || body.value.toSeq.None?
       || body.value.count.None? || body.value.head.None? {
      return Err("schema-missing-member");
    }
    var c := body.value;
    var fromSeq, count := c.fromSeq.value, c.count.value;
    if count != Attested(fromSeq, c.toSeq.value) {
      return Err("checkpoint-count-mismatch");
    }
    if |range| != count {
      return Err("checkpoint-count-mismatch");
    }
    if range == [] {
      return Err("schema-missing-member");
    }
    if RustSeq(v.seqno(range[0])).None? {
      assert !Sound(v, range[0], c.stream.value);
      return Err("schema-missing-member");
    }
    if RustSeq(v.seqno(range[0])).value != fromSeq {
      return Err("checkpoint-range-mismatch");
    }
    var result := VerifyRust(v, range, c.stream.value, expectedFirstPrev);
    if result.Err? {
      return Err(result.error.code);
    }
    if result.value.head != c.head.value {
      return Err("checkpoint-head-mismatch");
    }
    r := Ok(result.value);
  }

  /** The attested `to-seq` is the last position of the range exactly when the checkpoint's bounds
      are in order; the saturating subtraction lets the other checkpoints through. */
  lemma AttestedEnd<R>(v: View<R>, c: Checkpoint, range: seq<R>, stream: string, anchor: Option<string>)
    requires WellTyped(c) && c.fromSeq.Some? && c.toSeq.Some?
    requires Accepts(v, range, stream, anchor) && SeqOf(v, range[0]) == c.fromSeq.value
    requires Attested(c.fromSeq.value, c.toSeq.value) == |range|
    ensures SeqOf(v, range[|range| - 1]) == c.toSeq.value <==> c.fromSeq.value <= c.toSeq.value
  {
    assert Placed(v, range, anchor, |range| - 1);
  }

  /** A checkpoint whose bounds are inverted attests a single record beyond genesis. */
  lemma InvertedBoundsAttest<R>(v: View<R>, record: R, stream: string, anchor: Option<string>)
    requires Accepts(v, [record], stream, anchor) && SeqOf(v, record) > 0
    ensures Attests(v, Checkpoint(Some(stream), Some(SeqOf(v, record)), Some(0), Some(1), Some(v.id(record))), [record], anchor)
  {
  }

  /** Where the two verifiers do differ: a genuine record that fails the structural check for want of a
      `seq` fails nowhere in one and at 0 in the other. */
  lemma MissingPositionReadsApart<R>(v: View<R>, record: R, stream: string, anchor: Option<string>)
    requires v.signature(record).Genuine? && v.shape(record).Some? && v.seqno(record).Missing?
    ensures PythonVerdict(v, [record], stream, anchor) == Err(Failure(v.shape(record).value, None))
    ensures RustVerdict(v, [record], stream, anchor) == Err(Failure(v.shape(record).value, Some(0)))
  {
    assert FaultAt(v, [record], stream, anchor, 0) == Some(Shape(v.shape(record).value));
  }
}

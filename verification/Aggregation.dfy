/** Conservation of folded reads: over every interleaving of folding, closing and emitting, each read
    is counted once, in an open window, a closing one, a chained record, or a window whose record was lost. */
module Aggregation {
  import opened Prelude
  import opened Windows

  datatype Folded = Folded(key: WindowKey, read: Read)

  /** Where every read is: all of them in order of folding, and the windows that hold them. A window taken out waits,
      until its record is chained, or refused by the chain or otherwise dropped, and then lost. */
  datatype Ledger = Ledger(folded: seq<Folded>, open: map<WindowKey, Folding>, waiting: seq<Folding>,
                           chained: seq<Folding>, lost: seq<Folding>)

  const NOTHING: Ledger := Ledger([], map[], [], [], [])

  // ---- the four atomic sections ----

  function Joined(l: Ledger, key: WindowKey, read: Read, now: string): Folding {
    if key in l.open then l.open[key].(folds := l.open[key].folds + [read]) else Folding(key, now, [read])
  }

  /** Fold one read into its window, taking the window out when it is full. */
  function Fold(l: Ledger, max: nat, key: WindowKey, read: Read, now: string): Ledger {
    var window := Joined(l, key, read, now);
    var n := l.(folded := l.folded + [Folded(key, read)]);
    if |window.folds| >= max then n.(open := l.open - {key}, waiting := l.waiting + [window])
    else n.(open := l.open[key := window])
  }

  /** Take one window out. */
  function Close(l: Ledger, key: WindowKey): Ledger {
    if key in l.open then l.(open := l.open - {key}, waiting := l.waiting + [l.open[key]]) else l
  }

  /** Seal one window taken out before, and chain its record or lose it. */
  function Emit(l: Ledger, i: nat, written: bool): Ledger {
    if i < |l.waiting| then
      var n := l.(waiting := l.waiting[..i] + l.waiting[i + 1..]);
      if written then n.(chained := l.chained + [l.waiting[i]]) else n.(lost := l.lost + [l.waiting[i]])
    else l
  }

  datatype Act = Folds(key: WindowKey, read: Read, now: string) | Closes(closed: WindowKey) | Emits(i: nat, written: bool)

  function Apply(l: Ledger, max: nat, act: Act): Ledger {
    match act
    case Folds(key, read, now) => Fold(l, max, key, read, now)
    case Closes(key) => Close(l, key)
    case Emits(i, written) => Emit(l, i, written)
  }

  function Run(max: nat, acts: seq<Act>): Ledger {
    if acts == [] then NOTHING else Apply(Run(max, acts[..|acts| - 1]), max, acts[|acts| - 1])
  }

  /** The ledger of some run. */
  ghost predicate Reached(l: Ledger, max: nat) {
    exists acts :: l == Run(max, acts)
  }

  lemma ReachedFurther(l: Ledger, max: nat, act: Act)
    requires Reached(l, max)
    ensures Reached(Apply(l, max, act), max)
  {
    var acts :| l == Run(max, acts);
    assert (acts + [act])[..|acts|] == acts;
    assert Run(max, acts + [act]) == Apply(l, max, act);
  }

  // ---- counting ----

  function Seen(folded: seq<Folded>, key: WindowKey, action: string): nat {
    if folded == [] then 0
    else
      var last := folded[|folded| - 1];
      Seen(folded[..|folded| - 1], key, action) + if last.key == key && last.read.action == action then 1 else 0
  }

  function Within(w: Folding, key: WindowKey, action: string): nat {
    if w.key == key then CountOf(w.folds, action) else 0
  }

  function Among(ws: seq<Folding>, key: WindowKey, action: string): nat {
    if ws == [] then 0 else Among(ws[..|ws| - 1], key, action) + Within(ws[|ws| - 1], key, action)
  }

  function InOpen(open: map<WindowKey, Folding>, key: WindowKey, action: string): nat {
    if key in open then CountOf(open[key].folds, action) else 0
  }

  function Size(ws: seq<Folding>): nat {
    if ws == [] then 0 else Size(ws[..|ws| - 1]) + |ws[|ws| - 1].folds|
  }

  function Sizes(open: map<WindowKey, Folding>): map<WindowKey, int> {
    map key | key in open :: |open[key].folds|
  }

  /** Each read of this key and action is counted once. */
  ghost predicate Counted(l: Ledger, key: WindowKey, action: string) {
    Seen(l.folded, key, action) == InOpen(l.open, key, action) + Among(l.waiting, key, action) + Among(l.chained, key, action)
                                   + Among(l.lost, key, action)
  }

  ghost predicate Totalled(l: Ledger) {
    |l.folded| == Sum(Sizes(l.open)) + Size(l.waiting) + Size(l.chained) + Size(l.lost)
  }

  ghost predicate Conserved(l: Ledger) {
    Totalled(l) && forall key, action :: Counted(l, key, action)
  }

  predicate Bounded(w: Folding, max: nat) {
    1 <= |w.folds| && (|w.folds| <= max || |w.folds| == 1)
  }

  /** Open windows are short of the bound; what was taken out had reached it or was cut short. */
  ghost predicate Shaped(l: Ledger, max: nat) {
    && (forall key :: key in l.open ==> l.open[key].key == key && 1 <= |l.open[key].folds| && |l.open[key].folds| < max)
    && (forall i :: 0 <= i < |l.waiting| ==> Bounded(l.waiting[i], max))
    && (forall i :: 0 <= i < |l.chained| ==> Bounded(l.chained[i], max))
    && (forall i :: 0 <= i < |l.lost| ==> Bounded(l.lost[i], max))
  }

  ghost predicate Inv(l: Ledger, max: nat) {
    Conserved(l) && Shaped(l, max)
  }

  // ---- every section conserves ----

  lemma OneMoreFolded(folded: seq<Folded>, key: WindowKey, read: Read, k: WindowKey, a: string)
    ensures Seen(folded + [Folded(key, read)], k, a) == Seen(folded, k, a) + if k == key && a == read.action then 1 else 0
  {
    assert (folded + [Folded(key, read)])[..|folded|] == folded;
  }

  lemma OneMoreRead(w: Folding, read: Read, k: WindowKey, a: string)
    ensures Within(w.(folds := w.folds + [read]), k, a)
         == Within(w, k, a) + if k == w.key && a == read.action then 1 else 0
  {
    assert (w.folds + [read])[..|w.folds|] == w.folds;
  }

  lemma OneMoreWindow(ws: seq<Folding>, w: Folding, k: WindowKey, a: string)
    ensures Among(ws + [w], k, a) == Among(ws, k, a) + Within(w, k, a)
    ensures Size(ws + [w]) == Size(ws) + |w.folds|
  {
    assert (ws + [w])[..|ws|] == ws;
  }

  lemma {:induction false} OneWindowLess(ws: seq<Folding>, i: nat, k: WindowKey, a: string)
    requires i < |ws|
    ensures Among(ws[..i] + ws[i + 1..], k, a) == Among(ws, k, a) - Within(ws[i], k, a)
    ensures Size(ws[..i] + ws[i + 1..]) == Size(ws) - |ws[i].folds|
  {
    var last := |ws| - 1;
    if i == last {
      assert ws[..i] + ws[i + 1..] == ws[..last];
    } else {
      OneWindowLess(ws[..last], i, k, a);
      var rest := ws[..last][..i] + ws[..last][i + 1..];
      assert ws[..i] + ws[i + 1..] == rest + [ws[last]];
      OneMoreWindow(rest, ws[last], k, a);
    }
  }

  lemma OpenSizes(open: map<WindowKey, Folding>, key: WindowKey, w: Folding)
    ensures Sum(Sizes(open[key := w])) == Sum(Sizes(open)) + |w.folds| - if key in open then |open[key].folds| else 0
    ensures key in open ==> Sum(Sizes(open - {key})) == Sum(Sizes(open)) - |open[key].folds|
  {
    assert Sizes(open[key := w]) == Sizes(open)[key := |w.folds|];
    SumOfUpdate(Sizes(open), key, |w.folds|);
    if key in open {
      SumTakesAny(Sizes(open), key);
      assert Sizes(open - {key}) == Sizes(open) - {key};
    }
  }

  /** The window a read joins holds that read besides those it held. */
  lemma JoinedCounts(l: Ledger, key: WindowKey, read: Read, now: string, k: WindowKey, a: string)
    requires key in l.open ==> l.open[key].key == key
    ensures Joined(l, key, read, now).key == key
    ensures Within(Joined(l, key, read, now), k, a)
         == (if k == key then InOpen(l.open, k, a) else 0) + if k == key && a == read.action then 1 else 0
  {
    var was := if key in l.open then l.open[key] else Folding(key, now, []);
    assert Joined(l, key, read, now) == was.(folds := was.folds + [read]);
    OneMoreRead(was, read, k, a);
  }

  lemma FoldInCounts(l: Ledger, max: nat, key: WindowKey, read: Read, now: string, k: WindowKey, a: string)
    requires Counted(l, k, a) && (key in l.open ==> l.open[key].key == key) && |Joined(l, key, read, now).folds| < max
    ensures Counted(Fold(l, max, key, read, now), k, a)
  {
    JoinedCounts(l, key, read, now, k, a);
    OneMoreFolded(l.folded, key, read, k, a);
  }

  lemma FoldOutCounts(l: Ledger, max: nat, key: WindowKey, read: Read, now: string, k: WindowKey, a: string)
    requires Counted(l, k, a) && (key in l.open ==> l.open[key].key == key) && |Joined(l, key, read, now).folds| >= max
    ensures Counted(Fold(l, max, key, read, now), k, a)
  {
    JoinedCounts(l, key, read, now, k, a);
    OneMoreFolded(l.folded, key, read, k, a);
    OneMoreWindow(l.waiting, Joined(l, key, read, now), k, a);
  }

  lemma FoldCounts(l: Ledger, max: nat, key: WindowKey, read: Read, now: string, k: WindowKey, a: string)
    requires Counted(l, k, a) && (key in l.open ==> l.open[key].key == key)
    ensures Counted(Fold(l, max, key, read, now), k, a)
  {
    if |Joined(l, key, read, now).folds| < max { FoldInCounts(l, max, key, read, now, k, a); } else { FoldOutCounts(l, max, key, read, now, k, a); }
  }

  /** A read that opens or fills a window, and one that takes its window out. */
  lemma FoldInTotals(l: Ledger, max: nat, key: WindowKey, read: Read, now: string)
    requires Totalled(l) && |Joined(l, key, read, now).folds| < max
    ensures Totalled(Fold(l, max, key, read, now))
  {
    OpenSizes(l.open, key, Joined(l, key, read, now));
  }

  lemma FoldOutTotals(l: Ledger, max: nat, key: WindowKey, read: Read, now: string)
    requires Totalled(l) && |Joined(l, key, read, now).folds| >= max
    ensures Totalled(Fold(l, max, key, read, now))
  {
    var window := Joined(l, key, read, now);
    OpenSizes(l.open, key, window);
    OneMoreWindow(l.waiting, window, key, "");
    if key !in l.open { assert l.open - {key} == l.open; }
  }

  lemma FoldTotals(l: Ledger, max: nat, key: WindowKey, read: Read, now: string)
    requires Totalled(l)
    ensures Totalled(Fold(l, max, key, read, now))
  {
    if |Joined(l, key, read, now).folds| < max { FoldInTotals(l, max, key, read, now); } else { FoldOutTotals(l, max, key, read, now); }
  }

  lemma CloseCounts(l: Ledger, key: WindowKey, k: WindowKey, a: string)
    requires Counted(l, k, a) && (key in l.open ==> l.open[key].key == key)
    ensures Counted(Close(l, key), k, a)
  {
    if key in l.open { OneMoreWindow(l.waiting, l.open[key], k, a); }
  }

  lemma EmitCounts(l: Ledger, i: nat, written: bool, k: WindowKey, a: string)
    requires Counted(l, k, a)
    ensures Counted(Emit(l, i, written), k, a)
  {
    if i < |l.waiting| {
      OneWindowLess(l.waiting, i, k, a);
      OneMoreWindow(if written then l.chained else l.lost, l.waiting[i], k, a);
    }
  }

  lemma MovingTotals(l: Ledger, key: WindowKey, i: nat, written: bool)
    requires Totalled(l)
    ensures Totalled(Close(l, key)) && Totalled(Emit(l, i, written))
  {
    if key in l.open {
      OpenSizes(l.open, key, l.open[key]);
      OneMoreWindow(l.waiting, l.open[key], key, "");
    }
    if i < |l.waiting| {
      OneWindowLess(l.waiting, i, key, "");
      OneMoreWindow(if written then l.chained else l.lost, l.waiting[i], key, "");
    }
  }

  lemma ActKeepsShape(l: Ledger, max: nat, act: Act)
    requires Shaped(l, max)
    ensures Shaped(Apply(l, max, act), max)
  {
  }

  lemma ActKeepsInv(l: Ledger, max: nat, act: Act)
    requires Inv(l, max)
    ensures Inv(Apply(l, max, act), max)
  {
    ActKeepsShape(l, max, act);
    forall k, a ensures Counted(Apply(l, max, act), k, a) {
      match act
      case Folds(key, read, now) => FoldCounts(l, max, key, read, now, k, a);
      case Closes(key) => CloseCounts(l, key, k, a);
      case Emits(i, written) => EmitCounts(l, i, written, k, a);
    }
    match act
    case Folds(key, read, now) => FoldTotals(l, max, key, read, now);
    case Closes(key) => MovingTotals(l, key, 0, false);
    case Emits(i, written) => MovingTotals(l, WindowKey("", "", "", ""), i, written);
  }

  /** Over every run: each folded read is in exactly one window, and the windows' totals add up to the
      number of reads. */
  lemma {:induction false} RunConserves(max: nat, acts: seq<Act>)
    ensures Inv(Run(max, acts), max)
  {
    if acts != [] {
      RunConserves(max, acts[..|acts| - 1]);
      ActKeepsInv(Run(max, acts[..|acts| - 1]), max, acts[|acts| - 1]);
    }
  }

  /** What these records claim of one key and action. */
  function Claimed(chained: seq<Folding>, slots: nat, key: WindowKey, action: string): nat
    requires slots >= 1
  {
    if chained == [] then 0
    else
      var body := Seal(chained[|chained| - 1], slots);
      Claimed(chained[..|chained| - 1], slots, key, action)
      + if body.key == key && action in body.byAction then body.byAction[action] else 0
  }

  lemma {:induction false} ClaimsAreCounts(chained: seq<Folding>, slots: nat, key: WindowKey, action: string)
    requires slots >= 1
    ensures Claimed(chained, slots, key, action) == Among(chained, key, action)
  {
    if chained != [] { ClaimsAreCounts(chained[..|chained| - 1], slots, key, action); }
  }

  /** Once nothing is open and nothing waits, the chained records and the lost windows account for every read that
      was folded, and nothing is counted twice: the records claim all the reads of a key and action exactly when
      none of them was in a lost window. */
  lemma FlushedIsEverything(max: nat, acts: seq<Act>, slots: nat, key: WindowKey, action: string)
    requires slots >= 1
    requires Run(max, acts).open == map[] && Run(max, acts).waiting == []
    ensures var l := Run(max, acts);
      && Claimed(l.chained, slots, key, action) + Among(l.lost, key, action) == Seen(l.folded, key, action)
      && (Claimed(l.chained, slots, key, action) == Seen(l.folded, key, action) <==> Among(l.lost, key, action) == 0)
  {
    RunConserves(max, acts);
    assert Counted(Run(max, acts), key, action);
    ClaimsAreCounts(Run(max, acts).chained, slots, key, action);
  }

  /** Nothing is lost where every record is chained. */
  lemma {:induction false} NothingLost(max: nat, acts: seq<Act>)
    requires forall k :: 0 <= k < |acts| && acts[k].Emits? ==> acts[k].written
    ensures Run(max, acts).lost == []
  {
    if acts != [] {
      NothingLost(max, acts[..|acts| - 1]);
      assert acts[|acts| - 1].Emits? ==> acts[|acts| - 1].written;
    }
  }

  /** With at most 1024 reads to a window, every record any run emits passes the aggregate rules. */
  lemma EmittedIsSound(max: nat, acts: seq<Act>, slots: nat, i: nat)
    requires slots >= 1 && max <= 1024 && i < |Run(max, acts).chained|
    ensures Sound(ClaimOf(Seal(Run(max, acts).chained[i], slots)))
  {
    RunConserves(max, acts);
    var w := Run(max, acts).chained[i];
    assert Shaped(Run(max, acts), max) && Bounded(w, max);
    CountsAddUp(w.folds);
    SealedIsSound(w, slots);
  }
}

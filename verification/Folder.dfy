/** The gateway's dictionary of open windows as an object. Each method is one section under the window
    lock; sections of different threads interleave freely, and every one keeps the account of reads.
 */
module Folder {
  import opened Prelude
  import opened Windows
  import opened Aggregation

  /** An open window's fields. */
  datatype Window = Window(openedAt: string, lastAt: string, counts: map<string, nat>, samples: seq<string>)

  /** The fields of a window that holds these reads. */
  function Image(w: Folding, slots: nat): Window
    requires slots >= 1
  {
    Window(w.from, LastAt(w), Counts(w.folds), HashesAt(w.folds, Sampled(|w.folds|, slots)))
  }

  /** Count one read; keep its hash in a free slot, or else in the last one. */
  method Add(window: Window, slots: nat, action: string, argsHash: string, at: string, ghost w: Folding)
    returns (next: Window)
    requires slots >= 1 && window == Image(w, slots)
    ensures next == Image(w.(folds := w.folds + [Read(action, argsHash, at)]), slots)
  {
    next := window.(counts := Tallied(window.counts, action), lastAt := at);
    if |next.samples| < slots {
      next := next.(samples := next.samples + [argsHash]);
    } else {
      next := next.(samples := next.samples[|next.samples| - 1 := argsHash]);
    }
    ghost var folds := w.folds + [Read(action, argsHash, at)];
    assert folds[..|folds| - 1] == w.folds;
    assert next.samples == HashesAt(folds, Sampled(|folds|, slots));
  }

  method Total(counts: map<string, nat>) returns (total: nat)
    ensures total == Sum(counts)
  {
    var sum: int, rest: map<string, int> := 0, counts;
    while rest != map[]
      invariant sum == Sum(counts) - Sum(rest) && sum >= 0
      invariant forall a :: a in rest ==> a in counts && rest[a] == counts[a]
      decreases |rest|
    {
      var a :| a in rest;
      SumTakesAny(rest, a);
      sum, rest := sum + counts[a], rest - {a};
    }
    return sum;
  }

  /** The record a window is sealed into. */
  method Body(key: WindowKey, window: Window, ghost w: Folding, ghost slots: nat) returns (body: Aggregate)
    requires slots >= 1 && window == Image(w, slots) && w.key == key
    ensures body == Seal(w, slots)
  {
    CountsAddUp(w.folds);
    var total := Total(window.counts);
    body := Aggregate(key, window.openedAt, window.lastAt, total, window.counts, Cut(window.samples));
    assert Cut(window.samples) == HashesAt(w.folds, Cut(Sampled(|w.folds|, slots)));
    assert Cut(HashesAt(w.folds, Sampled(|w.folds|, slots))) == Cut(window.samples);
  }

  function MapAll<K, V, W>(m: map<K, V>, f: V -> W): map<K, W> {
    map k | k in m :: f(m[k])
  }

  function SeqAll<V, W>(s: seq<V>, f: V -> W): seq<W> {
    seq(|s|, i requires 0 <= i < |s| => f(s[i]))
  }

  lemma MapAllMoves<K, V, W>(m: map<K, V>, f: V -> W, key: K, v: V)
    ensures MapAll(m - {key}, f) == MapAll(m, f) - {key}
    ensures MapAll(m[key := v], f) == MapAll(m, f)[key := f(v)]
  {
  }

  lemma SeqAllMoves<V, W>(s: seq<V>, f: V -> W, i: nat, v: V)
    ensures SeqAll(s + [v], f) == SeqAll(s, f) + [f(v)]
    ensures i < |s| ==> SeqAll(s[..i] + s[i + 1..], f) == SeqAll(s, f)[..i] + SeqAll(s, f)[i + 1..]
  {
  }

  function Imager(slots: nat): Folding -> Window
    requires slots >= 1
  {
    w => Image(w, slots)
  }

  function Sealer(slots: nat): Folding -> Aggregate
    requires slots >= 1
  {
    w => Seal(w, slots)
  }

  /** The tables of windows and records are those of a ledger some run reaches. */
  ghost predicate Matches(windows: map<WindowKey, Window>, closing: seq<Aggregate>, emitted: seq<Aggregate>, l: Ledger,
                          max: nat, slots: nat)
  {
    && slots >= 1 && Reached(l, max)
    && windows == MapAll(l.open, Imager(slots))
    && closing == SeqAll(l.waiting, Sealer(slots)) && emitted == SeqAll(l.chained, Sealer(slots))
  }

  /** Every window open or waiting has its signing key at hand. */
  ghost predicate KeysAtHand(l: Ledger, keys: set<string>) {
    && (forall key :: key in l.open ==> l.open[key].key.subjectKey in keys)
    && (forall i :: 0 <= i < |l.waiting| ==> l.waiting[i].key.subjectKey in keys)
  }

  lemma ActKeepsKeys(l: Ledger, max: nat, act: Act, keys: set<string>)
    requires KeysAtHand(l, keys)
    ensures KeysAtHand(Apply(l, max, act), if act.Folds? then keys + {act.key.subjectKey} else keys)
  {
  }

  lemma OpenUnderItsKey(l: Ledger, max: nat, key: WindowKey)
    requires Reached(l, max) && key in l.open
    ensures l.open[key].key == key && l.open[key].folds != []
  {
    var acts :| l == Run(max, acts);
    RunConserves(max, acts);
    assert Shaped(l, max);
  }

  lemma FoldMatches(windows: map<WindowKey, Window>, closing: seq<Aggregate>, emitted: seq<Aggregate>, l: Ledger,
                    max: nat, slots: nat, key: WindowKey, read: Read, now: string)
    requires Matches(windows, closing, emitted, l, max, slots)
    ensures var n, w := Aggregation.Fold(l, max, key, read, now), Joined(l, key, read, now);
      if |w.folds| >= max then Matches(windows - {key}, closing + [Seal(w, slots)], emitted, n, max, slots)
      else Matches(windows[key := Image(w, slots)], closing, emitted, n, max, slots)
  {
    ReachedFurther(l, max, Folds(key, read, now));
    var w := Joined(l, key, read, now);
    MapAllMoves(l.open, Imager(slots), key, w);
    SeqAllMoves(l.waiting, Sealer(slots), 0, w);
  }

  lemma CloseMatches(windows: map<WindowKey, Window>, closing: seq<Aggregate>, emitted: seq<Aggregate>, l: Ledger,
                     max: nat, slots: nat, key: WindowKey)
    requires Matches(windows, closing, emitted, l, max, slots) && key in l.open
    ensures Matches(windows - {key}, closing + [Seal(l.open[key], slots)], emitted, Close(l, key), max, slots)
  {
    ReachedFurther(l, max, Closes(key));
    MapAllMoves(l.open, Imager(slots), key, l.open[key]);
    SeqAllMoves(l.waiting, Sealer(slots), 0, l.open[key]);
  }

  lemma EmitMatches(windows: map<WindowKey, Window>, closing: seq<Aggregate>, emitted: seq<Aggregate>, l: Ledger,
                    max: nat, slots: nat, i: nat, written: bool)
    requires Matches(windows, closing, emitted, l, max, slots) && i < |closing|
    ensures Matches(windows, closing[..i] + closing[i + 1..], if written then emitted + [closing[i]] else emitted,
                    Emit(l, i, written), max, slots)
    ensures closing[i] == Seal(l.waiting[i], slots)
  {
    ReachedFurther(l, max, Emits(i, written));
    SeqAllMoves(l.waiting, Sealer(slots), i, l.waiting[i]);
    SeqAllMoves(l.chained, Sealer(slots), 0, l.waiting[i]);
  }

  function ExpiredKeys(windows: map<WindowKey, Window>, deadline: string): set<WindowKey> {
    set key | key in windows && LexLe(windows[key].openedAt, deadline)
  }

  function Unexpired(windows: map<WindowKey, Window>, deadline: string): map<WindowKey, Window> {
    map key | key in windows && LexLt(deadline, windows[key].openedAt) :: windows[key]
  }

  lemma PopExpired(windows: map<WindowKey, Window>, deadline: string, key: WindowKey)
    requires key in ExpiredKeys(windows, deadline)
    ensures ExpiredKeys(windows - {key}, deadline) == ExpiredKeys(windows, deadline) - {key}
    ensures Unexpired(windows - {key}, deadline) == Unexpired(windows, deadline)
  {
  }

  lemma NoneExpired(windows: map<WindowKey, Window>, deadline: string)
    requires ExpiredKeys(windows, deadline) == {}
    ensures Unexpired(windows, deadline) == windows
  {
    forall key | key in windows ensures key in Unexpired(windows, deadline) {
      assert key !in ExpiredKeys(windows, deadline);
    }
  }

  class ReadFolder {
    const maxEvents: nat
    const maxSamples: nat
    var windows: map<WindowKey, Window>
    var closing: seq<Aggregate>
    var emitted: seq<Aggregate>
    var keys: set<string>
    ghost var ledger: Ledger

    /** The windows hold exactly the reads of some run of the ledger, and every open window's signing
        key is at hand. */
    ghost predicate Valid()
      reads this
    {
      && maxSamples >= 1
      && Matches(windows, closing, emitted, ledger, maxEvents, maxSamples)
      && KeysAtHand(ledger, keys)
    }

    constructor (maxEvents: nat, maxSamples: nat)
      requires maxSamples >= 1
      ensures Valid() && ledger == NOTHING && this.maxEvents == maxEvents && this.maxSamples == maxSamples
    {
      this.maxEvents, this.maxSamples := maxEvents, maxSamples;
      windows, closing, emitted, keys, ledger := map[], [], [], {}, NOTHING;
      assert Run(maxEvents, []) == NOTHING;
    }

    /** The locked part of folding: count the read, and take its window out when it is full. */
    method Fold(key: WindowKey, action: string, argsHash: string, openedAt: string, at: string)
      requires Valid()
      modifies this
      ensures Valid()
      ensures ledger == Aggregation.Fold(old(ledger), maxEvents, key, Read(action, argsHash, at), openedAt)
    {
      ghost var read := Read(action, argsHash, at);
      ghost var w := Joined(ledger, key, read, openedAt);
      ActKeepsKeys(ledger, maxEvents, Folds(key, read, openedAt), keys);
      FoldMatches(windows, closing, emitted, ledger, maxEvents, maxSamples, key, read, openedAt);
      var window := AddTo(key, action, argsHash, openedAt, at);
      keys := keys + {key.subjectKey};
      CountsAddUp(w.folds);
      var total := Total(window.counts);
      ledger := Aggregation.Fold(ledger, maxEvents, key, read, openedAt);
      if total >= maxEvents {
        var body := Body(key, window, w, maxSamples);
        windows, closing := windows - {key}, closing + [body];
      } else {
        windows := windows[key := window];
      }
    }

    method AddTo(key: WindowKey, action: string, argsHash: string, openedAt: string, at: string) returns (window: Window)
      requires Valid()
      ensures var w := Joined(ledger, key, Read(action, argsHash, at), openedAt);
        window == Image(w, maxSamples) && w.key == key
    {
      window := Window(openedAt, openedAt, map[], []);
      ghost var was := Folding(key, openedAt, []);
      if key in windows {
        OpenUnderItsKey(ledger, maxEvents, key);
        window, was := windows[key], ledger.open[key];
      }
      window := Add(window, maxSamples, action, argsHash, at, was);
      assert was.(folds := was.folds + [Read(action, argsHash, at)]) == Joined(ledger, key, Read(action, argsHash, at), openedAt);
    }

    method BodyOf(key: WindowKey) returns (body: Aggregate)
      requires Valid() && key in windows
      ensures key in ledger.open && body == Seal(ledger.open[key], maxSamples)
    {
      OpenUnderItsKey(ledger, maxEvents, key);
      body := Body(key, windows[key], ledger.open[key], maxSamples);
    }

    /** Take out one open window. */
    method Pop(key: WindowKey)
      requires Valid() && key in windows
      modifies this`windows, this`closing, this`ledger
      ensures Valid() && ledger == Close(old(ledger), key)
      ensures windows == old(windows) - {key}
    {
      var body := BodyOf(key);
      ActKeepsKeys(ledger, maxEvents, Closes(key), keys);
      CloseMatches(windows, closing, emitted, ledger, maxEvents, maxSamples, key);
      ledger := Close(ledger, key);
      windows, closing := windows - {key}, closing + [body];
    }

    /** Take out every window opened no later than the deadline, and no other. */
    method CloseExpired(deadline: string)
      requires Valid()
      modifies this`windows, this`closing, this`ledger
      ensures Valid() && ledger.folded == old(ledger.folded) && ledger.chained == old(ledger.chained) && ledger.lost == old(ledger.lost)
      ensures windows == Unexpired(old(windows), deadline)
    {
      while ExpiredKeys(windows, deadline) != {}
        invariant Valid() && ledger.folded == old(ledger.folded) && ledger.chained == old(ledger.chained) && ledger.lost == old(ledger.lost)
        invariant Unexpired(windows, deadline) == Unexpired(old(windows), deadline)
        decreases |ExpiredKeys(windows, deadline)|
      {
        var key :| key in ExpiredKeys(windows, deadline);
        PopExpired(windows, deadline, key);
        Pop(key);
      }
      NoneExpired(windows, deadline);
    }

    /** Take out every open window. */
    method TakeAll()
      requires Valid()
      modifies this`windows, this`closing, this`ledger
      ensures Valid() && ledger.folded == old(ledger.folded) && ledger.chained == old(ledger.chained) && ledger.lost == old(ledger.lost) && windows == map[]
    {
      while windows != map[]
        invariant Valid() && ledger.folded == old(ledger.folded) && ledger.chained == old(ledger.chained) && ledger.lost == old(ledger.lost)
        decreases |windows|
      {
        var key :| key in windows;
        Pop(key);
      }
    }

    /** Done with one window taken out before: its record is in the chain, or it is not and is only logged. */
    method Retire(i: nat, written: bool)
      requires Valid() && i < |closing|
      modifies this`closing, this`emitted, this`ledger
      ensures Valid() && ledger == Emit(old(ledger), i, written)
      ensures |closing| == old(|closing|) - 1 && windows == old(windows)
    {
      ActKeepsKeys(ledger, maxEvents, Emits(i, written), keys);
      EmitMatches(windows, closing, emitted, ledger, maxEvents, maxSamples, i, written);
      ledger := Emit(ledger, i, written);
      if written { emitted := emitted + [closing[i]]; }
      closing := closing[..i] + closing[i + 1..];
    }

    /** Shutdown: close every window and emit it; `written` says of each whether its record goes through, and is false
        from the first that raises on. The records chained and the windows lost then account for every read. */
    method Flush(written: nat -> bool)
      requires Valid()
      modifies this`windows, this`closing, this`emitted, this`ledger
      ensures Valid() && windows == map[] && closing == [] && ledger.folded == old(ledger.folded)
      ensures forall key, action ::
        Claimed(ledger.chained, maxSamples, key, action) + Among(ledger.lost, key, action) == Seen(ledger.folded, key, action)
      ensures (forall n :: written(n)) ==> ledger.lost == old(ledger.lost)
    {
      TakeAll();
      var n := 0;
      while closing != []
        invariant Valid() && windows == map[] && ledger.folded == old(ledger.folded)
        invariant (forall m :: written(m)) ==> ledger.lost == old(ledger.lost)
        decreases |closing|
      {
        Retire(0, written(n));
        n := n + 1;
      }
      ghost var acts :| ledger == Run(maxEvents, acts);
      forall key, action
        ensures Claimed(ledger.chained, maxSamples, key, action) + Among(ledger.lost, key, action) == Seen(ledger.folded, key, action)
      {
        FlushedIsEverything(maxEvents, acts, maxSamples, key, action);
      }
    }
  }
}

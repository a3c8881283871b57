/** Policy evaluation at the gateway: classification, and the gate rule that applies. */
module Policy {
  import opened Prelude
  import opened Patterns

  /** A dimension of a rule: absent, a string, or a value of another type. */
  datatype Dimension = Missing | Pattern(text: string) | Malformed

  /** How specifically a dimension matches a value, if it does. */
  function DimensionScore(d: Dimension, value: string): Option<nat> {
    match d
    case Missing => Some(0)
    case Malformed => None
    case Pattern(p) =>
      if p == "*" then Some(0)
      else if p == value then Some(2)
      else if EndsInStar(p) then
        var prefix := p[..|p| - 2];
        if StartsWith(value, prefix) && |value| > |prefix| && value[|prefix|] == '.' then Some(1) else None
      else None
  }

  /** A policy pattern scores exactly the values a mandate pattern matches; an exact one scores 2, a
      prefix 1, and `*` 0. */
  lemma ScoreIsMatch(p: string, value: string)
    ensures DimensionScore(Pattern(p), value).Some? <==> PatternMatches(p, value)
    ensures DimensionScore(Pattern(p), value) == Some(2) <==> p != "*" && p == value
  {
    if EndsInStar(p) {
      var prefix := p[..|p| - 2];
      assert p[|p| - 2] == p[|p| - 2..][0] == '.';
      assert Stem(p) == prefix + ".";
      if StartsWith(value, prefix) && |value| > |prefix| && value[|prefix|] == '.' {
        assert value[..|Stem(p)|] == value[..|prefix|] + [value[|prefix|]];
      }
      if StartsWith(value, Stem(p)) {
        assert value[..|prefix|] == value[..|Stem(p)|][..|prefix|] == prefix;
        assert value[|prefix|] == value[..|Stem(p)|][|prefix|];
      }
    }
  }

  /** The score a dimension gives a value: none for a match by default, one for a prefix, two for the value itself. */
  ghost predicate Scores(d: Dimension, value: string, score: nat) {
    match d
    case Missing => score == 0
    case Malformed => false
    case Pattern(p) =>
      || (score == 0 && p == "*")
      || (score == 1 && p != "*" && p != value && exists prefix, rest :: p == prefix + ".*" && value == prefix + "." + rest)
      || (score == 2 && p != "*" && p == value)
  }

  lemma ScoresExactly(d: Dimension, value: string)
    ensures forall score: nat :: DimensionScore(d, value) == Some(score) <==> Scores(d, value, score)
  {
    if d.Pattern? {
      ScoreIsMatch(d.text, value);
      PatternMeans(d.text, value);
    }
  }

  // ---- classification ----

  datatype Entry = Entry(subject: Dimension, action: Dimension, resource: Dimension, class_: string)

  datatype Call = Call(subject: string, action: string, resource: string)

  datatype Document = Document(reclassify: seq<Entry>, byAction: map<string, string>, defaultUnknown: string)

  const CLASSES: seq<string> := ["read", "benign", "consequential", "prohibited"]

  /** The strength of a class; one nobody knows is the strongest. */
  function ClassWeight(c: string): nat {
    if c == "read" then 0 else if c == "benign" then 1 else if c == "consequential" then 2 else if c == "prohibited" then 3 else 4
  }

  function EntryScore(e: Entry, call: Call): Option<nat> {
    match (DimensionScore(e.subject, call.subject), DimensionScore(e.action, call.action), DimensionScore(e.resource, call.resource))
    case (Some(s), Some(a), Some(r)) => Some(s + a + r)
    case _ => None
  }

  /** An entry that matches in every dimension scores what they score together. */
  lemma EntryScoresExactly(e: Entry, call: Call, score: nat)
    ensures EntryScore(e, call) == Some(score) <==> exists s: nat, a: nat, r: nat ::
      Scores(e.subject, call.subject, s) && Scores(e.action, call.action, a) && Scores(e.resource, call.resource, r)
      && score == s + a + r
  {
    ScoresExactly(e.subject, call.subject);
    ScoresExactly(e.action, call.action);
    ScoresExactly(e.resource, call.resource);
    if EntryScore(e, call) == Some(score) {
      var s, a, r := DimensionScore(e.subject, call.subject).value, DimensionScore(e.action, call.action).value,
                     DimensionScore(e.resource, call.resource).value;
      assert Scores(e.subject, call.subject, s) && Scores(e.action, call.action, a) && Scores(e.resource, call.resource, r);
    }
  }

  /** Each class is stronger than those before it, and one nobody knows than all. */
  lemma StrongerExactly(a: string, b: string)
    ensures ClassWeight(a) > ClassWeight(b) <==>
      || (b == "read" && a != "read")
      || (b == "benign" && a != "read" && a != "benign")
      || (b == "consequential" && a != "read" && a != "benign" && a != "consequential")
      || (b == "prohibited" && a != "read" && a != "benign" && a != "consequential" && a != "prohibited")
    ensures a in CLASSES <==> a == "read" || a == "benign" || a == "consequential" || a == "prohibited"
  {
    assert CLASSES[0] == "read" && CLASSES[1] == "benign" && CLASSES[2] == "consequential" && CLASSES[3] == "prohibited";
    assert |CLASSES| == 4;
  }

  /** Entry `i` is the earliest of those that match most specifically. */
  predicate IsBest(entries: seq<Entry>, call: Call, i: nat) {
    && i < |entries| && EntryScore(entries[i], call).Some?
    && var best := EntryScore(entries[i], call).value;
       && (forall j :: 0 <= j < i ==> Below(entries[j], call, best))
       && (forall j :: i < j < |entries| ==> Below(entries[j], call, best + 1))
  }

  predicate Below(e: Entry, call: Call, bound: nat) {
    EntryScore(e, call).Some? ==> EntryScore(e, call).value < bound
  }

  predicate NoneMatches(entries: seq<Entry>, call: Call) {
    forall j :: 0 <= j < |entries| ==> EntryScore(entries[j], call).None?
  }

  /** What is left when no entry speaks: the published action, the registered manifest, or the default
      against which a catalog guess competes. */
  function Fallback(doc: Document, call: Call, manifest: Option<string>, catalog: Option<string>): string {
    if call.action in doc.byAction then doc.byAction[call.action]
    else if manifest.Some? && manifest.value in CLASSES then manifest.value
    else if catalog.Some? && catalog.value in CLASSES && ClassWeight(catalog.value) > ClassWeight(doc.defaultUnknown)
    then catalog.value
    else doc.defaultUnknown
  }

  /** What a manifest or a catalog may propose. */
  predicate Proposes(proposal: Option<string>, class_: string) {
    proposal == Some(class_) && (class_ == "read" || class_ == "benign" || class_ == "consequential" || class_ == "prohibited")
  }

  /** Where no entry speaks: the published action binds, then the manifest, and a catalog only where it is stronger
      than the default. */
  lemma FallsBackExactly(doc: Document, call: Call, manifest: Option<string>, catalog: Option<string>)
    ensures var class_ := Fallback(doc, call, manifest, catalog);
      && (call.action in doc.byAction ==> class_ == doc.byAction[call.action])
      && (call.action !in doc.byAction ==>
            && (forall m :: Proposes(manifest, m) ==> class_ == m)
            && ((forall m :: !Proposes(manifest, m)) ==>
                  && (forall c :: Proposes(catalog, c) && ClassWeight(c) > ClassWeight(doc.defaultUnknown) ==> class_ == c)
                  && ((forall c :: Proposes(catalog, c) ==> ClassWeight(c) <= ClassWeight(doc.defaultUnknown)) ==>
                        class_ == doc.defaultUnknown)))
  {
    forall m ensures m in CLASSES <==> m == "read" || m == "benign" || m == "consequential" || m == "prohibited" {
      StrongerExactly(m, m);
    }
    if manifest.Some? && manifest.value in CLASSES { assert Proposes(manifest, manifest.value); }
    if catalog.Some? && catalog.value in CLASSES { assert Proposes(catalog, catalog.value); }
  }

  /** Classification as stated: the class of the best entry, or else the fallback. */
  ghost predicate Classifies(doc: Document, call: Call, manifest: Option<string>, catalog: Option<string>, class_: string) {
    || (exists i: nat :: IsBest(doc.reclassify, call, i) && class_ == doc.reclassify[i].class_)
    || (NoneMatches(doc.reclassify, call) && class_ == Fallback(doc, call, manifest, catalog))
  }

  /** The best of the first `n` entries: its score and position. */
  ghost predicate BestSoFar(entries: seq<Entry>, call: Call, n: nat, best: Option<(nat, nat)>)
    requires n <= |entries|
  {
    match best
    case None => forall j :: 0 <= j < n ==> EntryScore(entries[j], call).None?
    case Some((score, i)) =>
      && i < n && EntryScore(entries[i], call) == Some(score)
      && (forall j :: 0 <= j < i ==> Below(entries[j], call, score))
      && (forall j :: i < j < n ==> Below(entries[j], call, score + 1))
  }

  method Classify(doc: Document, call: Call, manifest: Option<string>, catalog: Option<string>) returns (class_: string)
    ensures Classifies(doc, call, manifest, catalog, class_)
  {
    var best: Option<(nat, nat)> := None;
    for i := 0 to |doc.reclassify|
      invariant BestSoFar(doc.reclassify, call, i, best)
    {
      var total := EntryScore(doc.reclassify[i], call);
      if total.Some? && (best.None? || total.value > best.value.0) {
        best := Some((total.value, i));
      }
    }
    if best.Some? {
      assert IsBest(doc.reclassify, call, best.value.1);
      return doc.reclassify[best.value.1].class_;
    }
    class_ := Fallback(doc, call, manifest, catalog);
  }

  lemma BestIsUnique(entries: seq<Entry>, call: Call, i: nat, j: nat)
    requires IsBest(entries, call, i) && IsBest(entries, call, j)
    ensures i == j && !NoneMatches(entries, call)
  {
    assert EntryScore(entries[i], call).Some? && EntryScore(entries[j], call).Some?;
  }

  /** There is one best entry or none matches, so there is exactly one class. */
  lemma ClassifiesOnce(doc: Document, call: Call, manifest: Option<string>, catalog: Option<string>, a: string, b: string)
    requires Classifies(doc, call, manifest, catalog, a) && Classifies(doc, call, manifest, catalog, b)
    ensures a == b
  {
    forall i: nat, j: nat | IsBest(doc.reclassify, call, i) && IsBest(doc.reclassify, call, j)
      ensures i == j && !NoneMatches(doc.reclassify, call)
    {
      BestIsUnique(doc.reclassify, call, i, j);
    }
  }

  /** Whether the published policy speaks about this call by name. */
  predicate Names(doc: Document, call: Call) {
    call.action in doc.byAction || exists i :: 0 <= i < |doc.reclassify| && EntryScore(doc.reclassify[i], call).Some?
  }

  /** The class does not depend on what manifest or catalog propose. */
  ghost predicate IgnoresProposals(doc: Document, call: Call) {
    forall manifest, catalog, manifest', catalog', a, b ::
      Classifies(doc, call, manifest, catalog, a) && Classifies(doc, call, manifest', catalog', b) ==> a == b
  }

  /** Policy names a call exactly when its class ignores every proposal. */
  lemma NamedIgnoresProposals(doc: Document, call: Call)
    ensures Names(doc, call) <==> IgnoresProposals(doc, call)
  {
    if Names(doc, call) {
      forall manifest, catalog, manifest', catalog', a, b
        | Classifies(doc, call, manifest, catalog, a) && Classifies(doc, call, manifest', catalog', b)
        ensures a == b
      {
        if NoneMatches(doc.reclassify, call) {
          assert Fallback(doc, call, manifest, catalog) == Fallback(doc, call, manifest', catalog');
        }
        assert Classifies(doc, call, manifest, catalog, b);
        ClassifiesOnce(doc, call, manifest, catalog, a, b);
      }
    } else {
      assert Classifies(doc, call, Some("read"), None, "read");
      assert Classifies(doc, call, Some("benign"), None, "benign");
    }
  }

  /** A catalog proposal never yields a weaker class than its absence. */
  lemma CatalogNeverWeakens(doc: Document, call: Call, manifest: Option<string>, catalog: Option<string>, a: string, b: string)
    requires Classifies(doc, call, manifest, catalog, a) && Classifies(doc, call, manifest, None, b)
    ensures ClassWeight(b) <= ClassWeight(a)
    ensures a != b ==> !Names(doc, call) && catalog == Some(a) && b == doc.defaultUnknown
  {
    if !NoneMatches(doc.reclassify, call) {
      assert Classifies(doc, call, manifest, None, a);
      ClassifiesOnce(doc, call, manifest, None, a, b);
    }
  }

  // ---- gate rules ----

  datatype Rule = Rule(classes: seq<string>, actions: Option<seq<Dimension>>, decision: string, approvers: seq<string>)

  datatype Verdict = Verdict(kind: string, approvers: seq<string>)

  predicate Applies(rule: Rule, class_: string, action: string) {
    && class_ in rule.classes
    && (rule.actions.None?
        || exists i :: 0 <= i < |rule.actions.value| && (DimensionScore(rule.actions.value[i], action).Some? || action == "*"))
  }

  /** A rule applies to the classes it lists, to every action unless it lists some, and then to those one of its
      patterns spells; asked of no action in particular, one that lists any. */
  lemma AppliesExactly(rule: Rule, class_: string, action: string)
    ensures Applies(rule, class_, action) <==>
      && class_ in rule.classes
      && (rule.actions.None?
          || (exists i, score: nat :: 0 <= i < |rule.actions.value| && Scores(rule.actions.value[i], action, score))
          || (action == "*" && rule.actions.value != []))
  {
    if rule.actions.Some? {
      var listed := rule.actions.value;
      forall i | 0 <= i < |listed|
        ensures DimensionScore(listed[i], action).Some? <==> exists score: nat :: Scores(listed[i], action, score)
      {
        ScoresExactly(listed[i], action);
        if DimensionScore(listed[i], action).Some? { assert Scores(listed[i], action, DimensionScore(listed[i], action).value); }
      }
      if listed != [] { assert DimensionScore(listed[0], action).Some? || action == "*" || action != "*"; }
    }
  }

  /** The first rule that applies decides; when none does, the absence of a permission is a denial. */
  method DecisionFor(rules: seq<Rule>, class_: string, action: string) returns (v: Verdict)
    ensures (forall j :: 0 <= j < |rules| ==> !Applies(rules[j], class_, action)) ==> v == Verdict("deny", [])
    ensures forall i :: 0 <= i < |rules| && Applies(rules[i], class_, action)
                        && (forall j :: 0 <= j < i ==> !Applies(rules[j], class_, action)) ==>
                          v == Verdict(rules[i].decision, rules[i].approvers)
  {
    for i := 0 to |rules|
      invariant forall j :: 0 <= j < i ==> !Applies(rules[j], class_, action)
    {
      if Applies(rules[i], class_, action) {
        return Verdict(rules[i].decision, rules[i].approvers);
      }
    }
    return Verdict("deny", []);
  }

  /** Asking without an action reaches every rule of the class but one narrowed to no action at all. */
  lemma AskingWithoutAction(rule: Rule, class_: string)
    ensures Applies(rule, class_, "*") <==> class_ in rule.classes && rule.actions != Some([])
  {
    if rule.actions.Some? && rule.actions.value != [] {
      assert 0 <= 0 < |rule.actions.value|;
      var i := 0;
      assert DimensionScore(rule.actions.value[i], "*").Some? || "*" == "*";
    }
  }
}

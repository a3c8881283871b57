/** Scope patterns: an exact value, `*`, or a prefix of dot-separated segments. */
module Patterns {
  import opened Prelude

  predicate StartsWith(s: string, prefix: string) {
    |prefix| <= |s| && s[..|prefix|] == prefix
  }

  predicate EndsInStar(pattern: string) {
    |pattern| >= 2 && pattern[|pattern| - 2..] == ".*"
  }

  /** A segment prefix with its point but without its star. */
  function Stem(pattern: string): string
    requires pattern != ""
  {
    pattern[..|pattern| - 1]
  }

  predicate PatternMatches(pattern: string, value: string) {
    if pattern == "*" then true
    else if EndsInStar(pattern) then StartsWith(value, Stem(pattern))
    else pattern == value
  }

  /** A pattern matches everything, or its own text, or what goes on after its prefix and a point. */
  lemma PatternMeans(pattern: string, value: string)
    ensures PatternMatches(pattern, value) <==>
      pattern == "*" || pattern == value || exists prefix, rest :: pattern == prefix + ".*" && value == prefix + "." + rest
  {
    if pattern != "*" && EndsInStar(pattern) {
      var prefix := pattern[..|pattern| - 2];
      assert pattern == prefix + pattern[|pattern| - 2..];
      assert Stem(pattern) == prefix + "." by { assert pattern[|pattern| - 2..][0] == '.'; }
      if StartsWith(value, Stem(pattern)) {
        assert value == value[..|Stem(pattern)|] + value[|Stem(pattern)|..];
        assert value == prefix + "." + value[|prefix| + 1..];
      }
    }
    if prefix, rest :| pattern == prefix + ".*" && value == prefix + "." + rest {
      StarredMatches(prefix, rest);
    }
  }

  lemma StarredMatches(prefix: string, rest: string)
    ensures PatternMatches(prefix + ".*", prefix + "." + rest)
  {
    var pattern, value := prefix + ".*", prefix + "." + rest;
    assert pattern[|pattern| - 2..] == ".*";
    assert Stem(pattern) == prefix + "." && value[..|prefix| + 1] == prefix + ".";
  }

  /** `wider` permits everything `narrower` does. */
  predicate Covers(wider: string, narrower: string) {
    if wider == "*" then true
    else if narrower == "*" then false
    else if EndsInStar(wider) then StartsWith(narrower, Stem(wider))
    else wider == narrower
  }

  lemma CoversIsSound(wider: string, narrower: string, value: string)
    requires Covers(wider, narrower) && PatternMatches(narrower, value)
    ensures PatternMatches(wider, value)
  {
    if wider != "*" && EndsInStar(wider) && EndsInStar(narrower) {
      StemWithin(wider, narrower);
      assert value[..|Stem(wider)|] == value[..|Stem(narrower)|][..|Stem(wider)|];
    }
  }

  /** A stem that starts a starred pattern starts that pattern's stem: it does not reach the star. */
  lemma StemWithin(wider: string, narrower: string)
    requires EndsInStar(wider) && EndsInStar(narrower) && StartsWith(narrower, Stem(wider))
    ensures StartsWith(Stem(narrower), Stem(wider))
  {
    var stem := Stem(wider);
    assert wider[|wider| - 2] == wider[|wider| - 2..][0] == '.';
    assert narrower[|narrower| - 1] == narrower[|narrower| - 2..][1] == '*';
    assert stem[|stem| - 1] == '.' && stem[|stem| - 1] == narrower[..|stem|][|stem| - 1];
    assert Stem(narrower)[..|stem|] == narrower[..|stem|];
  }

  lemma StemExtends(wider: string, narrower: string)
    requires EndsInStar(wider) && EndsInStar(narrower)
    ensures StartsWith(Stem(narrower), Stem(wider)) ==> StartsWith(narrower, Stem(wider))
  {
    if StartsWith(Stem(narrower), Stem(wider)) {
      assert narrower[..|Stem(wider)|] == Stem(narrower)[..|Stem(wider)|];
    }
  }

  /** A value the narrower pattern matches and the wider does not, when it does not cover. */
  function Escaping(wider: string, narrower: string): string {
    if narrower == "*" then
      if wider == "" || EndsInStar(wider) then (if wider == "" then "x" else "") else ""
    else if EndsInStar(narrower) then
      if EndsInStar(wider) then Stem(narrower) else if wider == Stem(narrower) then Stem(narrower) + "x" else Stem(narrower)
    else narrower
  }

  lemma CoversIsComplete(wider: string, narrower: string)
    requires !Covers(wider, narrower)
    ensures PatternMatches(narrower, Escaping(wider, narrower)) && !PatternMatches(wider, Escaping(wider, narrower))
  {
    var value := Escaping(wider, narrower);
    if narrower != "*" && EndsInStar(narrower) {
      var stem := Stem(narrower);
      assert StartsWith(value, stem);
      if EndsInStar(wider) { StemExtends(wider, narrower); }
    }
  }

  /** Covering is exactly inclusion of the values matched. */
  lemma CoversIsInclusion(wider: string, narrower: string)
    ensures Covers(wider, narrower) <==> forall value :: PatternMatches(narrower, value) ==> PatternMatches(wider, value)
  {
    if Covers(wider, narrower) {
      forall value | PatternMatches(narrower, value) ensures PatternMatches(wider, value) {
        CoversIsSound(wider, narrower, value);
      }
    } else {
      CoversIsComplete(wider, narrower);
    }
  }

  lemma CoversReflexive(p: string)
    ensures Covers(p, p)
  {
  }

  lemma CoversTransitive(a: string, b: string, c: string)
    requires Covers(a, b) && Covers(b, c)
    ensures Covers(a, c)
  {
    CoversIsInclusion(a, b);
    CoversIsInclusion(b, c);
    CoversIsInclusion(a, c);
  }

  // ---- scopes ----

  datatype Scope = Scope(components: seq<string>, actions: seq<string>, classes: seq<string>, resources: seq<string>)

  datatype Request = Request(component: string, action: string, classification: string, resource: string)

  predicate Matches(patterns: seq<string>, value: string) {
    exists i :: 0 <= i < |patterns| && PatternMatches(patterns[i], value)
  }

  predicate ScopePermits(scope: Scope, request: Request) {
    && Matches(scope.components, request.component)
    && Matches(scope.actions, request.action)
    && Matches(scope.classes, request.classification)
    && Matches(scope.resources, request.resource)
  }

  predicate Covered(parent: seq<string>, pattern: string) {
    exists j :: 0 <= j < |parent| && Covers(parent[j], pattern)
  }

  predicate SubsetOf(child: seq<string>, parent: seq<string>) {
    forall i :: 0 <= i < |child| ==> Covered(parent, child[i])
  }

  /** Every pattern of the child is covered by one of the parent's, dimension by dimension. */
  predicate ScopeSubset(child: Scope, parent: Scope) {
    && SubsetOf(child.components, parent.components)
    && SubsetOf(child.actions, parent.actions)
    && SubsetOf(child.classes, parent.classes)
    && SubsetOf(child.resources, parent.resources)
  }

  lemma SubsetMatches(child: seq<string>, parent: seq<string>, value: string)
    requires SubsetOf(child, parent) && Matches(child, value)
    ensures Matches(parent, value)
  {
    var i :| 0 <= i < |child| && PatternMatches(child[i], value);
    var j :| 0 <= j < |parent| && Covers(parent[j], child[i]);
    CoversIsSound(parent[j], child[i], value);
  }

  /** A delegated scope permits nothing its parent does not. */
  lemma ScopeNarrows(child: Scope, parent: Scope, request: Request)
    requires ScopeSubset(child, parent) && ScopePermits(child, request)
    ensures ScopePermits(parent, request)
  {
    SubsetMatches(child.components, parent.components, request.component);
    SubsetMatches(child.actions, parent.actions, request.action);
    SubsetMatches(child.classes, parent.classes, request.classification);
    SubsetMatches(child.resources, parent.resources, request.resource);
  }

  lemma SubsetTransitive(a: seq<string>, b: seq<string>, c: seq<string>)
    requires SubsetOf(a, b) && SubsetOf(b, c)
    ensures SubsetOf(a, c)
  {
    forall i | 0 <= i < |a| ensures Covered(c, a[i]) {
      var j :| 0 <= j < |b| && Covers(b[j], a[i]);
      var k :| 0 <= k < |c| && Covers(c[k], b[j]);
      CoversTransitive(c[k], b[j], a[i]);
    }
  }

  lemma SubsetReflexive(a: seq<string>)
    ensures SubsetOf(a, a)
  {
    forall i | 0 <= i < |a| ensures Covered(a, a[i]) { CoversReflexive(a[i]); }
  }

  lemma ScopeSubsetOrder(a: Scope, b: Scope, c: Scope)
    ensures ScopeSubset(a, a)
    ensures ScopeSubset(a, b) && ScopeSubset(b, c) ==> ScopeSubset(a, c)
  {
    SubsetReflexive(a.components);
    SubsetReflexive(a.actions);
    SubsetReflexive(a.classes);
    SubsetReflexive(a.resources);
    if ScopeSubset(a, b) && ScopeSubset(b, c) {
      SubsetTransitive(a.components, b.components, c.components);
      SubsetTransitive(a.actions, b.actions, c.actions);
      SubsetTransitive(a.classes, b.classes, c.classes);
      SubsetTransitive(a.resources, b.resources, c.resources);
    }
  }
}

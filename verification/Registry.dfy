/** Which providers can serve a model, and in what order. Providers are identified by name. */
module Registry {
  import opened Provider

  datatype GlobRule = GlobRule(pattern: string, provider: string)

  /** One immutable provider table. */
  datatype Table = Table(exact: map<string, string>, globs: seq<GlobRule>, fallback: Option<string>)

  /** path.Match: None is a malformed pattern. */
  type Matcher = (string, string) -> Option<bool>

  function Matching(globs: seq<GlobRule>, matches: Matcher, model: string): seq<string> {
    if globs == [] then []
    else
      var last := globs[|globs| - 1];
      Matching(globs[..|globs| - 1], matches, model)
      + if matches(last.pattern, model) == Some(true) then [last.provider] else []
  }

  /** Every claim on the model, highest priority first, duplicates included. */
  function Claims(t: Table, matches: Matcher, model: string): seq<string> {
    (if model in t.exact then [t.exact[model]] else [])
    + Matching(t.globs, matches, model)
    + (if t.fallback.Some? then [t.fallback.value] else [])
  }

  /** Keep the first occurrence of each name. */
  function Dedup(names: seq<string>): seq<string> {
    if names == [] then []
    else
      var before := Dedup(names[..|names| - 1]);
      if names[|names| - 1] in before then before else before + [names[|names| - 1]]
  }

  predicate FirstAt(names: seq<string>, i: nat) {
    i < |names| && names[i] !in names[..i]
  }

  /** The chain under construction: the claims seen so far, without duplicates. */
  class ChainBuilder {
    var chain: seq<string>
    var seen: set<string>
    ghost var claims: seq<string>

    ghost predicate Valid()
      reads this
    {
      chain == Dedup(claims) && seen == set n | n in chain
    }

    constructor ()
      ensures Valid() && claims == []
    {
      chain, seen, claims := [], {}, [];
    }

    method Add(p: string)
      requires Valid()
      modifies this
      ensures Valid() && claims == old(claims) + [p]
    {
      claims := claims + [p];
      assert claims[..|claims| - 1] == old(claims);
      if p !in seen {
        seen := seen + {p};
        chain := chain + [p];
      }
    }
  }

  method ResolveChain(t: Table, matches: Matcher, model: string) returns (chain: seq<string>)
    ensures chain == Dedup(Claims(t, matches, model))
  {
    var b := new ChainBuilder();
    if model in t.exact {
      b.Add(t.exact[model]);
    }
    var first := if model in t.exact then [t.exact[model]] else [];
    var i := 0;
    while i < |t.globs|
      invariant 0 <= i <= |t.globs|
      invariant b.Valid() && fresh(b) && b.claims == first + Matching(t.globs[..i], matches, model)
    {
      assert t.globs[..i + 1][..i] == t.globs[..i];
      var rule := t.globs[i];
      i := i + 1;
      var matched := matches(rule.pattern, model);
      if matched == Some(true) {
        b.Add(rule.provider);
      }
    }
    assert t.globs[..i] == t.globs;
    if t.fallback.Some? {
      b.Add(t.fallback.value);
    }
    assert b.claims == Claims(t, matches, model);
    return b.chain;
  }

  ghost predicate Before(s: seq<string>, a: string, b: string) {
    exists x, y :: 0 <= x < y < |s| && s[x] == a && s[y] == b
  }

  /** The chain has no duplicates, holds exactly the claimants, and starts with the first. */
  lemma {:induction false} ChainDistinct(names: seq<string>)
    ensures var d := Dedup(names);
            && (forall i, j :: 0 <= i < j < |d| ==> d[i] != d[j])
            && (forall n :: n in d <==> n in names)
            && (names != [] ==> d != [] && d[0] == names[0])
  {
    if names == [] {
    } else {
      ChainDistinct(names[..|names| - 1]);
      assert names == names[..|names| - 1] + [names[|names| - 1]];
    }
  }

  /** Providers come in the order of their first claims. */
  lemma {:induction false} ChainOrdered(names: seq<string>, i: nat, j: nat)
    requires i < j && FirstAt(names, i) && FirstAt(names, j)
    ensures Before(Dedup(names), names[i], names[j])
  {
    var init, last := names[..|names| - 1], names[|names| - 1];
    var d, d' := Dedup(init), Dedup(names);
    ChainDistinct(init);
    if j < |init| {
      assert names[..i] == init[..i] && names[..j] == init[..j];
      ChainOrdered(init, i, j);
      var x, y :| 0 <= x < y < |d| && d[x] == init[i] && d[y] == init[j];
      assert d'[x] == names[i] && d'[y] == names[j];
    } else {
      assert names[..j] == init && init[i] in d;
      var x :| 0 <= x < |d| && d[x] == init[i];
      assert d'[x] == names[i] && d'[|d|] == names[j];
    }
  }

  lemma {:induction false} MatchingExact(globs: seq<GlobRule>, matches: Matcher, model: string, name: string)
    ensures name in Matching(globs, matches, model) <==>
            exists i :: 0 <= i < |globs| && globs[i].provider == name && matches(globs[i].pattern, model) == Some(true)
  {
    if globs == [] {
    } else {
      var init := globs[..|globs| - 1];
      MatchingExact(init, matches, model, name);
      assert forall i :: 0 <= i < |init| ==> init[i] == globs[i];
    }
  }

  lemma {:induction false} MatchingOrdered(globs: seq<GlobRule>, matches: Matcher, model: string, i: nat, j: nat)
    requires i < j < |globs|
    requires matches(globs[i].pattern, model) == Some(true) && matches(globs[j].pattern, model) == Some(true)
    ensures Before(Matching(globs, matches, model), globs[i].provider, globs[j].provider)
  {
    var init := globs[..|globs| - 1];
    var m, m' := Matching(init, matches, model), Matching(globs, matches, model);
    if j < |init| {
      MatchingOrdered(init, matches, model, i, j);
      var x, y :| 0 <= x < y < |m| && m[x] == init[i].provider && m[y] == init[j].provider;
      assert m'[x] == globs[i].provider && m'[y] == globs[j].provider;
    } else {
      assert init[i] == globs[i];
      MatchingExact(init, matches, model, globs[i].provider);
      var x :| 0 <= x < |m| && m[x] == globs[i].provider;
      assert m'[x] == globs[i].provider && m'[|m|] == globs[j].provider;
    }
  }

  /** The tiers of the chain: the exact owner of the model comes first; then the providers of
      matching patterns, in the order of their declaration; the fallback comes before none that
      has a claim of its own, and nobody without a claim is in it. */
  lemma ChainTiers(t: Table, matches: Matcher, model: string)
    ensures var claims := Claims(t, matches, model);
            && (model in t.exact ==> claims != [] && Dedup(claims) != [] && Dedup(claims)[0] == t.exact[model])
            && (t.fallback.Some? ==> claims != [] && claims[|claims| - 1] == t.fallback.value)
            && (forall n :: n in Dedup(claims) <==>
                  || (model in t.exact && t.exact[model] == n)
                  || (t.fallback == Some(n))
                  || exists i :: 0 <= i < |t.globs| && t.globs[i].provider == n
                       && matches(t.globs[i].pattern, model) == Some(true))
            && (forall i, j ::
                  (&& 0 <= i < j < |t.globs|
                   && matches(t.globs[i].pattern, model) == Some(true)
                   && matches(t.globs[j].pattern, model) == Some(true))
                  ==> Before(claims, t.globs[i].provider, t.globs[j].provider))
  {
    hide Matching, Dedup, Before;
    var claims := Claims(t, matches, model);
    ChainDistinct(claims);
    forall n
      ensures n in Dedup(claims) <==>
              || (model in t.exact && t.exact[model] == n)
              || (t.fallback == Some(n))
              || exists i :: 0 <= i < |t.globs| && t.globs[i].provider == n
                   && matches(t.globs[i].pattern, model) == Some(true)
    {
      MatchingExact(t.globs, matches, model, n);
    }
    forall i, j | 0 <= i < j < |t.globs|
      && matches(t.globs[i].pattern, model) == Some(true) && matches(t.globs[j].pattern, model) == Some(true)
      ensures Before(claims, t.globs[i].provider, t.globs[j].provider)
    {
      MatchingOrdered(t.globs, matches, model, i, j);
      BeforeWithin(
        if model in t.exact then [t.exact[model]] else [],
        Matching(t.globs, matches, model),
        if t.fallback.Some? then [t.fallback.value] else [],
        t.globs[i].provider, t.globs[j].provider);
    }
  }

  lemma BeforeWithin(l: seq<string>, s: seq<string>, r: seq<string>, a: string, b: string)
    requires Before(s, a, b)
    ensures Before(l + s + r, a, b)
  {
    var x, y :| 0 <= x < y < |s| && s[x] == a && s[y] == b;
    assert (l + s + r)[|l| + x] == a && (l + s + r)[|l| + y] == b;
  }
}

/** Which providers a request is sent to: the chain of Registry, walked by Router. */
module Failover {
  import opened Registry
  import R = Router

  /** The names called, attempt by attempt. */
  function Called(chain: seq<string>, visits: seq<nat>): (names: seq<string>)
    requires forall j :: 0 <= j < |visits| ==> visits[j] < |chain|
    ensures |names| == |visits|
    ensures forall j :: 0 <= j < |visits| ==> names[j] == chain[visits[j]]
  {
    seq(|visits|, j requires 0 <= j < |visits| => chain[visits[j]])
  }

  /** A walk starts at the first provider and goes on with the same or the next one. */
  predicate Walk(visits: seq<nat>) {
    visits != [] && visits[0] == 0
    && forall j :: 0 < j < |visits| ==> visits[j] == visits[j - 1] || visits[j] == visits[j - 1] + 1
  }

  lemma RunWalks(p: R.RetryPolicy, env: R.Env, n: nat, start: int)
    requires n > 0
    ensures Walk(R.Route(p, env, n, start).visits)
    ensures var visits := R.Route(p, env, n, start).visits; visits[|visits| - 1] < n
  {
    hide R.Route;
    R.RunShape(p, env, n, start);
    var visits := R.Route(p, env, n, start).visits;
    forall j | 0 < j < |visits|
      ensures visits[j] == visits[j - 1] || visits[j] == visits[j - 1] + 1
    {
      assert R.LegalMove(env, visits, j - 1);
    }
  }

  lemma {:induction false} WalkAscends(visits: seq<nat>, i: nat, j: nat)
    requires Walk(visits) && i <= j < |visits|
    ensures visits[i] <= visits[j]
    decreases j
  {
    if i == j {
    } else {
      WalkAscends(visits, i, j - 1);
    }
  }

  /** Without repetitions, the names called are the chain up to where the walk has got. */
  lemma {:induction false} WalkCoversPrefix(chain: seq<string>, visits: seq<nat>)
    requires Walk(visits) && forall j :: 0 <= j < |visits| ==> visits[j] < |chain|
    requires forall i, j :: 0 <= i < j < |chain| ==> chain[i] != chain[j]
    ensures Dedup(Called(chain, visits)) == chain[..visits[|visits| - 1] + 1]
    decreases |visits|
  {
    var names, n := Called(chain, visits), |visits| - 1;
    if n == 0 {
      assert names[..0] == [] && Dedup([]) == [];
      assert Dedup(names) == [chain[0]];
    } else {
      var before := visits[..n];
      WalkCoversPrefix(chain, before);
      assert names[..n] == Called(chain, before);
      var v := visits[n];
      assert chain[..v + 1] == chain[..v] + [chain[v]];
      if v == visits[n - 1] {
        assert chain[v] == chain[..v + 1][v];
      } else {
        assert chain[v] !in chain[..v];
      }
    }
  }

  /** In every run, for every provider table and model: the providers called, without
      repetitions, are a prefix of the chain that the registry resolved, none of them twice, and
      a provider that was left is never called again. */
  lemma CallsChainPrefix(
    t: Table, matches: Matcher, model: string, p: R.RetryPolicy, env: R.Env, start: int)
    requires Claims(t, matches, model) != []
    ensures var chain := Dedup(Claims(t, matches, model));
            && chain != []
            && var visits := R.Route(p, env, |chain|, start).visits;
            && (forall j :: 0 <= j < |visits| ==> visits[j] < |chain|)
            && var names := Called(chain, visits);
            && names != []
            && Dedup(names) <= chain
            && (forall i, j, k :: 0 <= i < j < k < |names| && names[i] == names[k] ==> names[j] == names[i])
  {
    hide R.Route;
    var chain := Dedup(Claims(t, matches, model));
    ChainDistinct(Claims(t, matches, model));
    var visits := R.Route(p, env, |chain|, start).visits;
    RunWalks(p, env, |chain|, start);
    forall i, j | 0 <= i <= j < |visits|
      ensures visits[i] <= visits[j]
    {
      WalkAscends(visits, i, j);
    }
    WalkCoversPrefix(chain, visits);
  }
}

/** The Redis sliding-window limiter: the Lua script as one atomic step on a key, over every
    sequence of calls from any number of gateway instances. Times are exact nanoseconds. */
module SlidingWindow {
  import opened Basics
  import opened Provider

  const SECOND: int := 1_000_000_000
  const MILLISECOND: int := 1_000_000

  /** NewRedisWindow accepts exactly the valid ones. */
  datatype Config = Config(limit: int, window: int) {
    predicate Valid() {
      limit >= 1 && window > 0
    }

    /** The key's time to live, in nanoseconds. */
    function Ttl(): int {
      (window / SECOND + 5) * SECOND
    }
  }

  /** `now` is the caller's clock, `redisNow` the server's. */
  datatype Call = Call(now: int, cost: int, redisNow: int)

  datatype Entry = Entry(member: int, score: int)

  /** The sorted set, lowest score first, the sequence counter, and their common expiry. */
  datatype Key = Key(zset: seq<Entry>, seqno: int, expireAt: Option<int>)

  const MISSING := Key([], 0, None)

  datatype Decision = Decision(allowed: bool, remaining: int, retryMs: int)

  function CeilDiv(a: int, b: int): (q: int)
    requires b > 0
    ensures (q - 1) * b < a <= q * b
  {
    (a + b - 1) / b
  }

  // ---- Sorted-set commands ----

  /** ZREMRANGEBYSCORE -inf cut. */
  function Cut(z: seq<Entry>, cut: int): seq<Entry> {
    if z == [] then []
    else Cut(z[..|z| - 1], cut) + if z[|z| - 1].score > cut then [z[|z| - 1]] else []
  }

  function Remove(z: seq<Entry>, member: int): seq<Entry> {
    if z == [] then []
    else Remove(z[..|z| - 1], member) + if z[|z| - 1].member != member then [z[|z| - 1]] else []
  }

  function Insert(z: seq<Entry>, e: Entry): seq<Entry> {
    if z == [] || z[|z| - 1].score <= e.score then z + [e]
    else Insert(z[..|z| - 1], e) + [z[|z| - 1]]
  }

  /** ZADD: a member already in the set is moved, not added again. */
  function Zadd(z: seq<Entry>, member: int, score: int): seq<Entry> {
    Insert(Remove(z, member), Entry(member, score))
  }

  /** `cost` INCRs, each followed by a ZADD of the new number. */
  function Grow(z: seq<Entry>, seqno: int, now: int, cost: nat): seq<Entry> {
    if cost == 0 then z else Zadd(Grow(z, seqno, now, cost - 1), seqno + cost, now)
  }

  // ---- The script, as a function of the key ----

  /** Redis drops both keys when their time to live is over. */
  function Expired(k: Key, redisNow: int): Key {
    if k.expireAt.Some? && redisNow >= k.expireAt.value then MISSING else k
  }

  function Charge(c: Call): (n: nat)
    ensures n == Max(1, c.cost)
  {
    if c.cost < 1 then 1 else c.cost
  }

  /** What the population check sees. */
  function Population(cfg: Config, k: Key, c: Call): seq<Entry> {
    Cut(Expired(k, c.redisNow).zset, c.now - cfg.window)
  }

  predicate Admits(cfg: Config, k: Key, c: Call) {
    |Population(cfg, k, c)| + Charge(c) <= cfg.limit
  }

  function NextKey(cfg: Config, k: Key, c: Call): Key {
    var live, k' := Population(cfg, k, c), Expired(k, c.redisNow);
    if Admits(cfg, k, c) then
      Key(Grow(live, k'.seqno, c.now, Charge(c)), k'.seqno + Charge(c), Some(c.redisNow + cfg.Ttl()))
    else
      k'.(zset := live)
  }

  /** The advertised wait: until the oldest entry leaves the window, in whole milliseconds. */
  function RetryMs(cfg: Config, live: seq<Entry>, now: int): int {
    if live == [] then 0 else Max(0, CeilDiv(live[0].score + cfg.window - now, MILLISECOND))
  }

  function Answer(cfg: Config, k: Key, c: Call): Decision {
    var live := Population(cfg, k, c);
    if Admits(cfg, k, c) then
      Decision(true, Max(0, cfg.limit - (|live| + Charge(c))), 0)
    else
      Decision(false, Max(0, cfg.limit - |live|), RetryMs(cfg, live, c.now))
  }

  // ---- The script itself ----

  class RedisKey {
    var zset: seq<Entry>
    var seqno: int
    var expireAt: Option<int>

    function View(): Key
      reads this
    {
      Key(zset, seqno, expireAt)
    }

    constructor ()
      ensures View() == MISSING
    {
      zset, seqno, expireAt := [], 0, None;
    }

    /** RedisWindow.Allow on this key. */
    method Allow(cfg: Config, c: Call) returns (d: Decision)
      modifies this
      ensures View() == NextKey(cfg, old(View()), c)
      ensures d == Answer(cfg, old(View()), c)
    {
      hide Cut, Insert, Remove;
      var cost := if c.cost < 1 then 1 else c.cost;
      if expireAt.Some? && c.redisNow >= expireAt.value {
        zset, seqno, expireAt := [], 0, None;
      }
      zset := Cut(zset, c.now - cfg.window);
      var current := |zset|;
      if current + cost > cfg.limit {
        var retryMs := 0;
        if zset != [] {
          retryMs := CeilDiv(zset[0].score + cfg.window - c.now, MILLISECOND);
          if retryMs < 0 {
            retryMs := 0;
          }
        }
        return Decision(false, Max(0, cfg.limit - current), retryMs);
      }
      ghost var live, base := zset, seqno;
      var i := 0;
      while i < cost
        invariant 0 <= i <= cost
        invariant seqno == base + i && zset == Grow(live, base, c.now, i)
      {
        seqno := seqno + 1;
        zset := Zadd(zset, seqno, c.now);
        i := i + 1;
      }
      expireAt := Some(c.redisNow + cfg.Ttl());
      var remaining := cfg.limit - (current + cost);
      if remaining < 0 {
        remaining := 0;
      }
      return Decision(true, remaining, 0);
    }
  }

  // ---- Runs ----

  /** The key after a sequence of calls. */
  function Exec(cfg: Config, calls: seq<Call>): Key {
    if calls == [] then MISSING else NextKey(cfg, Exec(cfg, Init(calls)), Last(calls))
  }

  function Init(calls: seq<Call>): seq<Call>
    requires calls != []
  {
    calls[..|calls| - 1]
  }

  function Last(calls: seq<Call>): Call
    requires calls != []
  {
    calls[|calls| - 1]
  }

  /** Whether the last call of the sequence was admitted. */
  predicate Admitted(cfg: Config, calls: seq<Call>)
    requires calls != []
  {
    Admits(cfg, Exec(cfg, Init(calls)), Last(calls))
  }

  /** The total cost, as the callers asked for it and at least 1 each, that was admitted with a
      timestamp in (lo, hi]. */
  function AdmittedCost(cfg: Config, calls: seq<Call>, lo: int, hi: int): int {
    if calls == [] then 0
    else
      AdmittedCost(cfg, Init(calls), lo, hi)
      + if Admitted(cfg, calls) && lo < Last(calls).now <= hi then Max(1, Last(calls).cost) else 0
  }

  /** Callers' clocks do not go back in script order, and between two scripts the server's
      clock does not gain on them more than the four seconds of slack that the time to live
      has over the window. */
  ghost predicate Clocks(calls: seq<Call>) {
    forall i, j :: 0 <= i < j < |calls| ==>
      && calls[i].now <= calls[j].now
      && calls[j].redisNow - calls[i].redisNow <= calls[j].now - calls[i].now + 4 * SECOND
  }

  // ---- The set holds exactly the admitted units that are newer than the last cut ----

  /** The timestamps of all admitted units, in order. */
  function Log(cfg: Config, calls: seq<Call>): seq<int> {
    if calls == [] then []
    else Log(cfg, Init(calls)) + if Admitted(cfg, calls) then Copies(Last(calls).now, Charge(Last(calls))) else []
  }

  function Copies(x: int, n: nat): (s: seq<int>)
    ensures |s| == n && forall i :: 0 <= i < n ==> s[i] == x
  {
    seq(n, _ => x)
  }

  ghost predicate Sorted(log: seq<int>) {
    forall i, j :: 0 <= i < j < |log| ==> log[i] <= log[j]
  }

  /** How many units are newer than `cut`. */
  function Newer(log: seq<int>, cut: int): nat {
    if log == [] then 0 else Newer(log[..|log| - 1], cut) + if log[|log| - 1] > cut then 1 else 0
  }

  /** The sorted set of the last n units: their own timestamps under consecutive numbers. */
  function Image(log: seq<int>, seqno: int, n: nat): seq<Entry>
    requires n <= |log|
  {
    seq(n, i requires 0 <= i < n => Entry(seqno - n + 1 + i, log[|log| - n + i]))
  }

  lemma {:induction false} NewerBound(log: seq<int>, cut: int)
    ensures Newer(log, cut) <= |log|
  {
    if log == [] {
    } else {
      NewerBound(log[..|log| - 1], cut);
    }
  }

  lemma {:induction false} NoneNewer(log: seq<int>, cut: int)
    requires forall i :: 0 <= i < |log| ==> log[i] <= cut
    ensures Newer(log, cut) == 0
  {
    if log == [] {
    } else {
      NoneNewer(log[..|log| - 1], cut);
    }
  }

  lemma {:induction false} NewerMonotone(log: seq<int>, cut: int, cut': int)
    requires cut <= cut'
    ensures Newer(log, cut') <= Newer(log, cut)
  {
    if log == [] {
    } else {
      NewerMonotone(log[..|log| - 1], cut, cut');
    }
  }

  lemma {:induction false} NewerCopies(log: seq<int>, x: int, n: nat, cut: int)
    requires x > cut
    ensures Newer(log + Copies(x, n), cut) == Newer(log, cut) + n
  {
    if n == 0 {
      assert log + Copies(x, n) == log;
    } else {
      var all := log + Copies(x, n);
      assert all[..|all| - 1] == log + Copies(x, n - 1);
      NewerCopies(log, x, n - 1, cut);
    }
  }

  lemma ImageSnoc(log: seq<int>, x: int, seqno: int, n: nat)
    requires n <= |log|
    ensures Image(log + [x], seqno + 1, n + 1) == Image(log, seqno, n) + [Entry(seqno + 1, x)]
  {
  }

  lemma CutSnoc(z: seq<Entry>, e: Entry, cut: int)
    ensures Cut(z + [e], cut) == Cut(z, cut) + if e.score > cut then [e] else []
  {
    assert (z + [e])[..|z|] == z;
  }

  /** Cutting a sorted set of the newest units leaves exactly those newer than the cut. */
  lemma {:induction false} CutImage(log: seq<int>, seqno: int, n: nat, cut: int)
    requires Sorted(log) && Newer(log, cut) <= n <= |log|
    ensures Cut(Image(log, seqno, n), cut) == Image(log, seqno, Newer(log, cut))
  {
    hide Image, Cut;
    if n == 0 {
      EmptyImages(log, log, seqno);
      CutNothing(cut);
    } else {
      var init, last := log[..|log| - 1], log[|log| - 1];
      assert log == init + [last];
      ImageSnoc(init, last, seqno - 1, n - 1);
      CutSnoc(Image(init, seqno - 1, n - 1), Entry(seqno, last), cut);
      if last <= cut {
        NoneNewer(init, cut);
        CutImage(init, seqno - 1, n - 1, cut);
        EmptyImages(init, log, seqno);
      } else {
        CutImage(init, seqno - 1, n - 1, cut);
        ImageSnoc(init, last, seqno - 1, Newer(init, cut));
      }
    }
  }

  lemma CutNothing(cut: int)
    ensures Cut([], cut) == []
  {
  }

  lemma EmptyImages(a: seq<int>, b: seq<int>, seqno: int)
    ensures Image(a, seqno - 1, 0) == [] == Image(b, seqno, 0)
  {
  }

  lemma {:induction false} RemoveFresh(z: seq<Entry>, member: int)
    requires forall i :: 0 <= i < |z| ==> z[i].member != member
    ensures Remove(z, member) == z
  {
    if z == [] {
    } else {
      RemoveFresh(z[..|z| - 1], member);
    }
  }

  /** A new number goes to the end of the set. */
  lemma ZaddImage(log: seq<int>, seqno: int, n: nat, now: int)
    requires n <= |log| && (log != [] ==> log[|log| - 1] <= now)
    ensures Zadd(Image(log, seqno, n), seqno + 1, now) == Image(log + [now], seqno + 1, n + 1)
  {
    RemoveFresh(Image(log, seqno, n), seqno + 1);
    ImageSnoc(log, now, seqno, n);
  }

  /** Admitting appends the new units, under numbers no entry has. */
  lemma {:induction false} GrowImage(log: seq<int>, seqno: int, n: nat, now: int, cost: nat)
    requires n <= |log| && (log != [] ==> log[|log| - 1] <= now)
    ensures Grow(Image(log, seqno, n), seqno, now, cost) == Image(log + Copies(now, cost), seqno + cost, n + cost)
  {
    hide Image, Zadd;
    if cost == 0 {
      assert log + Copies(now, 0) == log;
    } else {
      GrowImage(log, seqno, n, now, cost - 1);
      var before := log + Copies(now, cost - 1);
      ZaddImage(before, seqno + cost - 1, n + cost - 1, now);
      assert log + Copies(now, cost) == before + [now];
    }
  }

  /** The last admitted call, which set the time to live. */
  function LastAdmitted(cfg: Config, calls: seq<Call>): Option<Call> {
    if calls == [] then None
    else if Admitted(cfg, calls) then Some(Last(calls))
    else LastAdmitted(cfg, Init(calls))
  }

  ghost predicate KeyInv(cfg: Config, calls: seq<Call>, cut: int) {
    var k, log, la := Exec(cfg, calls), Log(cfg, calls), LastAdmitted(cfg, calls);
    && Sorted(log)
    && Newer(log, cut) <= |log|
    && k.zset == Image(log, k.seqno, Newer(log, cut))
    && (log != [] <==> la.Some?)
    && (log != [] ==> log[|log| - 1] == la.value.now)
    && (k.expireAt.Some? ==> la.Some? && k.expireAt == Some(la.value.redisNow + cfg.Ttl()))
  }

  /** A key that reached the end of its time to live holds nothing that is still in the window. */
  lemma ExpiryDropsNothingLive(cfg: Config, calls: seq<Call>, c: Call)
    requires cfg.Valid() && Clocks(calls + [c])
    requires Sorted(Log(cfg, calls)) && LastAdmitted(cfg, calls).Some?
    requires Log(cfg, calls) != [] && Log(cfg, calls)[|Log(cfg, calls)| - 1] == LastAdmitted(cfg, calls).value.now
    requires c.redisNow >= LastAdmitted(cfg, calls).value.redisNow + cfg.Ttl()
    ensures Newer(Log(cfg, calls), c.now - cfg.window) == 0
  {
    hide Log, LastAdmitted;
    var la, log := LastAdmitted(cfg, calls).value, Log(cfg, calls);
    LastAdmittedIsCall(cfg, calls);
    var i :| 0 <= i < |calls| && calls[i] == la;
    assert (calls + [c])[i] == la && (calls + [c])[|calls|] == c;
    assert cfg.Ttl() > cfg.window + 4 * SECOND;
    NoneNewer(log, c.now - cfg.window);
  }

  lemma {:induction false} LastAdmittedIsCall(cfg: Config, calls: seq<Call>)
    ensures LastAdmitted(cfg, calls).Some? ==> LastAdmitted(cfg, calls).value in calls
  {
    if calls == [] {
    } else {
      LastAdmittedIsCall(cfg, Init(calls));
    }
  }

  /** What the script's first command leaves, in a run. */
  lemma PopulationExact(cfg: Config, calls: seq<Call>, cut: int, c: Call)
    requires cfg.Valid() && Clocks(calls + [c])
    requires KeyInv(cfg, calls, cut) && cut <= c.now - cfg.window
    ensures var log, k' := Log(cfg, calls), Expired(Exec(cfg, calls), c.redisNow);
            && Newer(log, c.now - cfg.window) <= |log|
            && Population(cfg, Exec(cfg, calls), c) == Image(log, k'.seqno, Newer(log, c.now - cfg.window))
  {
    hide Exec, Log, LastAdmitted;
    var k, log := Exec(cfg, calls), Log(cfg, calls);
    NewerBound(log, c.now - cfg.window);
    if Expired(k, c.redisNow) != k {
      ExpiryDropsNothingLive(cfg, calls, c);
      assert Cut([], c.now - cfg.window) == [];
    } else {
      NewerMonotone(log, cut, c.now - cfg.window);
      CutImage(log, k.seqno, Newer(log, cut), c.now - cfg.window);
    }
  }

  /** One more call keeps the invariant; the cut moves to that call's window. */
  lemma StepKeepsInv(cfg: Config, calls: seq<Call>, cut: int)
    requires cfg.Valid() && Clocks(calls) && calls != []
    requires KeyInv(cfg, Init(calls), cut) && cut <= Last(calls).now - cfg.window
    ensures KeyInv(cfg, calls, Last(calls).now - cfg.window)
  {
    hide Exec, Log, Image, Newer, Grow, Sorted;
    var init, c := Init(calls), Last(calls);
    var log, k, cut' := Log(cfg, init), Exec(cfg, init), c.now - cfg.window;
    var k' := Expired(k, c.redisNow);
    assert init + [c] == calls;
    PopulationExact(cfg, init, cut, c);
    UnfoldRun(cfg, calls);
    if Admitted(cfg, calls) {
      LogBefore(cfg, calls);
      GrowImage(log, k'.seqno, Newer(log, cut'), c.now, Charge(c));
      NewerCopies(log, c.now, Charge(c), cut');
      SortedCopies(log, c.now, Charge(c));
    }
  }

  lemma UnfoldRun(cfg: Config, calls: seq<Call>)
    requires calls != []
    ensures Exec(cfg, calls) == NextKey(cfg, Exec(cfg, Init(calls)), Last(calls))
    ensures Admitted(cfg, calls) ==>
              Log(cfg, calls) == Log(cfg, Init(calls)) + Copies(Last(calls).now, Charge(Last(calls)))
    ensures !Admitted(cfg, calls) ==> Log(cfg, calls) == Log(cfg, Init(calls))
  {
    assert Log(cfg, Init(calls)) + [] == Log(cfg, Init(calls));
  }

  lemma SortedCopies(log: seq<int>, x: int, n: nat)
    requires Sorted(log) && (log != [] ==> log[|log| - 1] <= x)
    ensures Sorted(log + Copies(x, n))
  {
  }

  /** Earlier units are not newer than the last call. */
  lemma LogBefore(cfg: Config, calls: seq<Call>)
    requires calls != [] && Clocks(calls)
    requires var log, la := Log(cfg, Init(calls)), LastAdmitted(cfg, Init(calls));
             log != [] ==> la.Some? && log[|log| - 1] == la.value.now
    ensures var log := Log(cfg, Init(calls)); log != [] ==> log[|log| - 1] <= Last(calls).now
  {
    hide Log;
    LastAdmittedIsCall(cfg, Init(calls));
    var la := LastAdmitted(cfg, Init(calls));
    if la.Some? {
      var i :| 0 <= i < |Init(calls)| && Init(calls)[i] == la.value;
      assert calls[i] == la.value;
    }
  }

  /** After every run the set holds, in order and under distinct consecutive numbers, exactly
      the admitted units newer than the last call's cut. */
  lemma {:induction false} SetExact(cfg: Config, calls: seq<Call>)
    requires cfg.Valid() && Clocks(calls) && calls != []
    ensures KeyInv(cfg, calls, Last(calls).now - cfg.window)
  {
    var init, c := Init(calls), Last(calls);
    if init == [] {
      StepKeepsInv(cfg, calls, c.now - cfg.window);
    } else {
      SetExact(cfg, init);
      assert Last(init) == calls[|calls| - 2];
      StepKeepsInv(cfg, calls, Last(init).now - cfg.window);
    }
  }

  // ---- The limit holds in every window ----

  lemma {:induction false} CostIsNewer(cfg: Config, calls: seq<Call>, cut: int, hi: int)
    requires forall i :: 0 <= i < |calls| ==> calls[i].now <= hi
    ensures AdmittedCost(cfg, calls, cut, hi) == Newer(Log(cfg, calls), cut)
  {
    hide Admitted;
    if calls == [] {
    } else {
      UnfoldRun(cfg, calls);
      CostIsNewer(cfg, Init(calls), cut, hi);
      var c := Last(calls);
      if Admitted(cfg, calls) {
        if c.now > cut {
          NewerCopies(Log(cfg, Init(calls)), c.now, Charge(c), cut);
        } else {
          OldCopies(Log(cfg, Init(calls)), c.now, Charge(c), cut);
        }
      }
    }
  }

  lemma {:induction false} OldCopies(log: seq<int>, x: int, n: nat, cut: int)
    requires x <= cut
    ensures Newer(log + Copies(x, n), cut) == Newer(log, cut)
  {
    if n == 0 {
      assert log + Copies(x, n) == log;
    } else {
      var all := log + Copies(x, n);
      assert all[..|all| - 1] == log + Copies(x, n - 1);
      OldCopies(log, x, n - 1, cut);
    }
  }

  /** Raising the lower end, or lowering the upper, never adds cost. */
  lemma {:induction false} CostMonotone(cfg: Config, calls: seq<Call>, lo: int, hi: int, lo': int, hi': int)
    requires lo <= lo' && (hi' <= hi || forall i :: 0 <= i < |calls| ==> calls[i].now <= hi)
    ensures 0 <= AdmittedCost(cfg, calls, lo', hi') <= AdmittedCost(cfg, calls, lo, hi)
  {
    hide Admitted;
    if calls == [] {
    } else {
      CostMonotone(cfg, Init(calls), lo, hi, lo', hi');
    }
  }

  /** The admission test of a run's last call is a test of the cost in its own window. */
  lemma PopulationIsCost(cfg: Config, calls: seq<Call>)
    requires cfg.Valid() && Clocks(calls) && calls != []
    ensures var c := Last(calls);
            |Population(cfg, Exec(cfg, Init(calls)), c)| ==
            AdmittedCost(cfg, Init(calls), c.now - cfg.window, c.now)
  {
    hide Exec, Log, Cut;
    var init, c := Init(calls), Last(calls);
    assert init + [c] == calls;
    if init == [] {
      EmptyKey(cfg, c.now - cfg.window);
      PopulationExact(cfg, init, c.now - cfg.window, c);
    } else {
      SetExact(cfg, init);
      assert Last(init) == calls[|calls| - 2];
      PopulationExact(cfg, init, Last(init).now - cfg.window, c);
    }
    CostIsNewer(cfg, init, c.now - cfg.window, c.now);
  }

  lemma EmptyKey(cfg: Config, cut: int)
    ensures KeyInv(cfg, [], cut)
  {
  }

  /** In every run and for every t, the cost admitted in (t - window, t] is at most the limit. */
  lemma {:induction false} WindowSafety(cfg: Config, calls: seq<Call>, t: int)
    requires cfg.Valid() && Clocks(calls)
    ensures AdmittedCost(cfg, calls, t - cfg.window, t) <= cfg.limit
  {
    hide Exec, Population;
    if calls == [] {
    } else {
      var init, c := Init(calls), Last(calls);
      if Admitted(cfg, calls) && c.now <= t {
        PopulationIsCost(cfg, calls);
        CostMonotone(cfg, init, c.now - cfg.window, c.now, t - cfg.window, t);
      } else {
        WindowSafety(cfg, init, t);
      }
    }
  }

  // ---- The Retry-After promise ----

  /** retryAfterSeconds, on the milliseconds the script answered. */
  function RetryAfterSeconds(ms: int): int {
    var d := ms * MILLISECOND;
    if d <= 0 then 0 else Max(1, d / SECOND + if d % SECOND > 0 then 1 else 0)
  }

  /** A repeated call is admitted exactly when what is left of the first one's window leaves room. */
  lemma RetryByCost(cfg: Config, calls: seq<Call>, again: Call)
    requires cfg.Valid() && calls != [] && Clocks(calls + [again])
    ensures Admitted(cfg, calls + [again]) <==>
            AdmittedCost(cfg, calls, again.now - cfg.window, Last(calls).now) + Max(1, again.cost) <= cfg.limit
  {
    hide Exec, Population, AdmittedCost;
    var all := calls + [again];
    assert Init(all) == calls && Last(all) == again;
    PopulationIsCost(cfg, all);
    PrefixClocks(calls, again);
    CostMonotone(cfg, calls, again.now - cfg.window, Last(calls).now, again.now - cfg.window, again.now);
    CostMonotone(cfg, calls, again.now - cfg.window, again.now, again.now - cfg.window, Last(calls).now);
  }

  /** At least j units are newer than `cut` iff the j-th newest is. */
  lemma {:induction false} NthNewest(log: seq<int>, cut: int, j: nat)
    requires Sorted(log) && 1 <= j <= |log|
    ensures log[|log| - j] > cut <==> Newer(log, cut) >= j
  {
    var init, last := log[..|log| - 1], log[|log| - 1];
    if last <= cut {
      NoneNewer(log, cut);
    } else if j == 1 {
    } else {
      NthNewest(init, cut, j - 1);
    }
  }

  /** What a denied call saw: the units of its window, oldest first. */
  lemma DeniedWindow(cfg: Config, calls: seq<Call>)
    requires cfg.Valid() && calls != [] && Clocks(calls) && !Admitted(cfg, calls)
    ensures var live := Population(cfg, Exec(cfg, Init(calls)), Last(calls));
            var log, cut := Log(cfg, calls), Last(calls).now - cfg.window;
            && |live| == Newer(log, cut) <= |log|
            && |live| <= cfg.limit < |live| + Charge(Last(calls))
            && forall i :: 0 <= i < |live| ==> live[i].score == log[|log| - |live| + i]
  {
    hide Exec, Log, AdmittedCost, Newer, Cut;
    var init, c := Init(calls), Last(calls);
    assert init + [c] == calls;
    UnfoldRun(cfg, calls);
    if init == [] {
      EmptyKey(cfg, c.now - cfg.window);
      PopulationExact(cfg, init, c.now - cfg.window, c);
    } else {
      SetExact(cfg, init);
      assert Last(init) == calls[|calls| - 2];
      PopulationExact(cfg, init, Last(init).now - cfg.window, c);
    }
    PopulationIsCost(cfg, calls);
    WindowSafety(cfg, init, c.now);
  }

  /** A call is admitted exactly when its cost still fits its window, and is told what then remains
      of the limit: what was admitted in the window, and its own cost if admitted, taken off. */
  lemma AnswerExact(cfg: Config, calls: seq<Call>)
    requires cfg.Valid() && calls != [] && Clocks(calls)
    ensures var c := Last(calls);
            var d, used := Answer(cfg, Exec(cfg, Init(calls)), c), AdmittedCost(cfg, Init(calls), c.now - cfg.window, c.now);
            && (d.allowed <==> used + Max(1, c.cost) <= cfg.limit)
            && d.allowed == Admitted(cfg, calls)
            && d.remaining == cfg.limit - used - (if d.allowed then Max(1, c.cost) else 0)
            && (d.allowed ==> d.retryMs == 0)
  {
    hide Exec, Population, AdmittedCost, RetryMs;
    PopulationIsCost(cfg, calls);
    InitClocks(calls);
    WindowSafety(cfg, Init(calls), Last(calls).now);
  }

  lemma InitClocks(calls: seq<Call>)
    requires calls != [] && Clocks(calls)
    ensures Clocks(Init(calls))
  {
    assert forall i :: 0 <= i < |Init(calls)| ==> Init(calls)[i] == calls[i];
  }

  /** The entry that has to leave the window of a denied call: as many from the oldest on as the
      call was too many. */
  function Blocking(cfg: Config, live: seq<Entry>, cost: nat): int {
    |live| + cost - cfg.limit - 1
  }

  /** A denied call of any cost, repeated with no other traffic on the key, is admitted if and
      only if it does not exceed the limit by itself and the entry that blocks it, counted from
      the oldest, has left the window by then. */
  lemma RetryExact(cfg: Config, calls: seq<Call>, again: Call)
    requires cfg.Valid() && calls != [] && Clocks(calls + [again])
    requires !Admitted(cfg, calls) && again.cost == Last(calls).cost
    ensures var live, cost := Population(cfg, Exec(cfg, Init(calls)), Last(calls)), Max(1, Last(calls).cost);
            && 0 <= Blocking(cfg, live, cost)
            && (cost <= cfg.limit <==> Blocking(cfg, live, cost) < |live|)
            && (Admitted(cfg, calls + [again]) <==>
                cost <= cfg.limit && again.now >= live[Blocking(cfg, live, cost)].score + cfg.window)
  {
    hide Exec, Log, Population, Admitted, AdmittedCost, KeyInv, Newer;
    var c := Last(calls);
    var live, log := Population(cfg, Exec(cfg, Init(calls)), c), Log(cfg, calls);
    var cost, cut := Charge(c), again.now - cfg.window;
    PrefixClocks(calls, again);
    DeniedWindow(cfg, calls);
    RetryByCost(cfg, calls, again);
    CostIsNewer(cfg, calls, cut, c.now);
    LogSorted(cfg, calls);
    if cost <= cfg.limit {
      NthNewest(log, cut, cfg.limit - cost + 1);
      assert live[Blocking(cfg, live, cost)].score == log[|log| - (cfg.limit - cost + 1)];
    }
  }

  lemma LogSorted(cfg: Config, calls: seq<Call>)
    requires cfg.Valid() && calls != [] && Clocks(calls)
    ensures Sorted(Log(cfg, calls))
  {
    SetExact(cfg, calls);
  }

  /** A denied unit call is admitted if and only if the oldest entry has left the window by then. */
  lemma UnitRetryExact(cfg: Config, calls: seq<Call>, again: Call)
    requires cfg.Valid() && calls != [] && Clocks(calls + [again])
    requires !Admitted(cfg, calls) && Max(1, Last(calls).cost) == 1 && again.cost == Last(calls).cost
    ensures var live := Population(cfg, Exec(cfg, Init(calls)), Last(calls));
            && live != []
            && (Admitted(cfg, calls + [again]) <==> again.now >= live[0].score + cfg.window)
  {
    hide Exec, Log, Population, Admitted, KeyInv;
    PrefixClocks(calls, again);
    DeniedWindow(cfg, calls);
    RetryExact(cfg, calls, again);
  }

  lemma PrefixClocks(calls: seq<Call>, c: Call)
    requires calls != [] && Clocks(calls + [c])
    ensures Clocks(calls) && Last(calls).now <= c.now
    ensures forall i :: 0 <= i < |calls| ==> calls[i].now <= Last(calls).now
  {
    var all := calls + [c];
    assert forall i :: 0 <= i < |calls| ==> all[i] == calls[i];
    assert all[|calls|] == c;
  }

  /** The advertised wait is long enough, and so is the header's whole number of seconds; and a
      retry a millisecond or more before it is denied again. */
  lemma RetryAfterPromise(cfg: Config, calls: seq<Call>, again: Call)
    requires cfg.Valid() && calls != [] && Clocks(calls + [again])
    requires !Admitted(cfg, calls) && Max(1, Last(calls).cost) == 1 && again.cost == Last(calls).cost
    ensures var ms := Answer(cfg, Exec(cfg, Init(calls)), Last(calls)).retryMs;
            again.now >= Last(calls).now + ms * MILLISECOND
            || again.now >= Last(calls).now + RetryAfterSeconds(ms) * SECOND
            ==> Admitted(cfg, calls + [again])
    ensures var ms := Answer(cfg, Exec(cfg, Init(calls)), Last(calls)).retryMs;
            again.now <= Last(calls).now + (ms - 1) * MILLISECOND ==> !Admitted(cfg, calls + [again])
  {
    hide Exec, Population;
    var c := Last(calls);
    UnitRetryExact(cfg, calls, again);
    var ms := Answer(cfg, Exec(cfg, Init(calls)), c).retryMs;
    SecondsCover(ms);
  }

  lemma SecondsCover(ms: int)
    ensures RetryAfterSeconds(ms) * SECOND >= ms * MILLISECOND
    ensures ms >= 0 ==> RetryAfterSeconds(ms) * SECOND < ms * MILLISECOND + SECOND
  {
    var d := ms * MILLISECOND;
    assert d == (d / SECOND) * SECOND + d % SECOND;
  }

  const SAMPLE := Config(2, 10 * SECOND)
  const SAMPLE_KEY := Key([Entry(1, 0), Entry(2, 5 * SECOND)], 2, Some(5 * SECOND + SAMPLE.Ttl()))

  lemma GrowOne(z: seq<Entry>, seqno: int, now: int)
    ensures Grow(z, seqno, now, 1) == Zadd(z, seqno + 1, now)
  {
    hide Zadd;
    assert Grow(z, seqno, now, 0) == z;
  }

  lemma ZaddFirst(member: int, now: int)
    ensures Zadd([], member, now) == [Entry(member, now)]
  {
  }

  lemma ZaddSecond(e: Entry, member: int, now: int)
    requires e.member != member && e.score <= now
    ensures Zadd([e], member, now) == [e, Entry(member, now)]
  {
    hide Remove;
    RemoveFresh([e], member);
  }

  const SAMPLE_FIRST := Key([Entry(1, 0)], 1, Some(SAMPLE.Ttl()))

  lemma SampleSteps()
    ensures NextKey(SAMPLE, MISSING, Call(0, 1, 0)) == SAMPLE_FIRST
    ensures NextKey(SAMPLE, SAMPLE_FIRST, Call(5 * SECOND, 1, 5 * SECOND)) == SAMPLE_KEY
  {
    hide Grow, Zadd, Cut;
    CutNothing(-10 * SECOND);
    GrowOne([], 0, 0);
    ZaddFirst(1, 0);
    CutSnoc([], Entry(1, 0), -5 * SECOND);
    CutNothing(-5 * SECOND);
    assert [] + [Entry(1, 0)] == [Entry(1, 0)];
    GrowOne([Entry(1, 0)], 1, 5 * SECOND);
    ZaddSecond(Entry(1, 0), 2, 5 * SECOND);
  }

  /** The state of the key after one unit at 0 s and one at 5 s. */
  lemma SampleRun()
    ensures Exec(SAMPLE, [Call(0, 1, 0), Call(5 * SECOND, 1, 5 * SECOND)]) == SAMPLE_KEY
  {
    hide NextKey;
    SampleSteps();
    var c1, c2 := Call(0, 1, 0), Call(5 * SECOND, 1, 5 * SECOND);
    assert Init([c1]) == [] && Init([c1, c2]) == [c1];
    assert Exec(SAMPLE, [c1]) == SAMPLE_FIRST;
  }

  /** For a cost above one the promise fails: with a limit of two, entries at 0 s and 5 s and a
      10 s window, a call of cost two at 6 s is told to wait 4 s, and is denied again at 10 s. */
  lemma RetryAfterFailsForTokens()
    ensures var calls := [Call(0, 1, 0), Call(5 * SECOND, 1, 5 * SECOND)];
            var denied, again := Call(6 * SECOND, 2, 6 * SECOND), Call(10 * SECOND, 2, 10 * SECOND);
            && Clocks(calls + [denied, again])
            && Answer(SAMPLE, Exec(SAMPLE, calls), denied) == Decision(false, 0, 4000)
            && !Admitted(SAMPLE, calls + [denied] + [again])
  {
    hide Exec, Cut, Grow;
    var calls := [Call(0, 1, 0), Call(5 * SECOND, 1, 5 * SECOND)];
    var denied, again := Call(6 * SECOND, 2, 6 * SECOND), Call(10 * SECOND, 2, 10 * SECOND);
    SampleRun();
    CutPair(SAMPLE_KEY.zset[0], SAMPLE_KEY.zset[1], -4 * SECOND);
    CutPair(SAMPLE_KEY.zset[0], SAMPLE_KEY.zset[1], 0);
    UnfoldRun(SAMPLE, calls + [denied]);
    assert Init(calls + [denied]) == calls;
    assert Init(calls + [denied] + [again]) == calls + [denied];
    assert Exec(SAMPLE, calls + [denied]) == SAMPLE_KEY;
  }

  lemma CutPair(a: Entry, b: Entry, cut: int)
    ensures Cut([a, b], cut) == (if a.score > cut then [a] else []) + (if b.score > cut then [b] else [])
  {
    assert [a, b] == ([] + [a]) + [b];
    CutSnoc([] + [a], b, cut);
    CutSnoc([], a, cut);
  }

  /** The key lives longer than any entry matters, by more than four and at most five seconds. */
  lemma TtlExact(cfg: Config)
    requires cfg.Valid()
    ensures cfg.window + 4 * SECOND < cfg.Ttl() <= cfg.window + 5 * SECOND
  {
  }
}

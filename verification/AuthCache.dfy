/** Authentication of one API key through the Redis cache while the key is being revoked:
    every interleaving of callers, cache reads, lookups, cache writes, expiry and the
    revocation, from any number of gateway instances. Reading the cache and letting the caller
    in are two steps, as are a lookup, its cache write and its delivery. A write that timed out
    at the gateway may be applied by Redis at any later time. A label that is not enabled only lets a step pass. */
module AuthCache {
  import opened Provider

  datatype Config = Config(posTtl: int, negTtl: int)

  /** The key's row in api_keys. */
  datatype Row = Absent | Active | Revoked

  datatype Found = Principal | NoActiveRow | DbFault

  /** A table lookup: what it returned and at which step. */
  datatype Lookup = Lookup(found: Found, step: nat)

  /** One singleflight call: lookup, then cache write, then delivery to every sharing caller. */
  datatype Flight = Started | Looked(lookup: Lookup) | Settled(lookup: Lookup)

  datatype Entry = Entry(positive: bool, lookup: Lookup, writtenAt: int, expires: int)

  /** A positive cache hit that a caller holds but has not acted on. */
  datatype Hit = Hit(lookup: Lookup, writtenAt: int, readAt: int)

  /** What let a caller in: a cache entry, when it was written and when read, or a flight. */
  datatype Source = FromCache(writtenAt: int, readAt: int) | FromFlight(id: int)

  /** A caller was let in. */
  datatype Accept = Accept(step: nat, now: int, lookup: Lookup, source: Source)

  datatype State = State(
    step: nat, now: int, row: Row, revokedAt: Option<nat>,
    cache: Option<Entry>, late: map<int, Lookup>, hits: map<int, Hit>, flights: map<int, Flight>, accepts: seq<Accept>)

  const INIT := State(0, 0, Absent, None, None, map[], map[], map[], [])

  /** How a SET ended: applied, failed, or timed out with its fate open. */
  datatype Reply = Applied | Failed | TimedOut

  datatype Label =
    | Pass(duration: nat)
    | Create
    | RevokeRow
    | DeleteEntry(ok: bool)
    | Get(caller: int, redisOk: bool)
    | Return(caller: int)
    | StartFlight(id: int)
    | LookUp(id: int, fault: bool)
    | WriteBack(id: int, reply: Reply)
    | ApplyLate(id: int)
    | LoseLate(id: int)
    | Deliver(id: int)
    | EndFlight(id: int)

  /** The entry a GET returns. */
  function Live(s: State): Option<Entry> {
    if s.cache.Some? && s.now < s.cache.value.expires then s.cache else None
  }

  function Let(s: State, lookup: Lookup, source: Source): State {
    s.(accepts := s.accepts + [Accept(s.step, s.now, lookup, source)])
  }

  /** write: transient faults are not cached, nor anything without a time to live. */
  predicate Worth(cfg: Config, lookup: Lookup) {
    (lookup.found == Principal && cfg.posTtl > 0) || (lookup.found == NoActiveRow && cfg.negTtl > 0)
  }

  /** The entry a SET leaves when Redis applies it. */
  function Written(cfg: Config, s: State, lookup: Lookup): Entry {
    var positive := lookup.found == Principal;
    Entry(positive, lookup, s.now, s.now + if positive then cfg.posTtl else cfg.negTtl)
  }

  function Settle(cfg: Config, s: State, id: int, lookup: Lookup, reply: Reply): State {
    var s' := s.(flights := s.flights[id := Settled(lookup)]);
    if !Worth(cfg, lookup) || reply == Failed then s'
    else if reply == Applied then s'.(cache := Some(Written(cfg, s, lookup)))
    else s'.(late := s.late[id := lookup])
  }

  /** The table. */
  function TableStep(s: State, l: Label): State {
    match l
    case Create => if s.row == Absent then s.(row := Active) else s
    case RevokeRow => if s.row == Active then s.(row := Revoked, revokedAt := Some(s.step)) else s
    case _ => s
  }

  /** Redis: time passes, Revoke's delete, writes that the gateway has given up on. */
  function RedisStep(cfg: Config, s: State, l: Label): State {
    match l
    case Pass(d) => s.(now := s.now + d)
    case DeleteEntry(ok) => if s.row == Revoked && ok then s.(cache := None) else s
    case ApplyLate(id) =>
      if id in s.late then s.(cache := Some(Written(cfg, s, s.late[id])), late := s.late - {id}) else s
    case LoseLate(id) => s.(late := s.late - {id})
    case _ => s
  }

  /** A caller served from the cache. */
  function CallerStep(s: State, l: Label): State {
    match l
    case Get(caller, redisOk) =>
      var hit := Live(s);
      if caller !in s.hits && redisOk && hit.Some? && hit.value.positive then
        s.(hits := s.hits[caller := Hit(hit.value.lookup, hit.value.writtenAt, s.now)])
      else
        s
    case Return(caller) =>
      if caller in s.hits then
        var h := s.hits[caller];
        Let(s.(hits := s.hits - {caller}), h.lookup, FromCache(h.writtenAt, h.readAt))
      else
        s
    case _ => s
  }

  /** A shared lookup. */
  function FlightStep(cfg: Config, s: State, l: Label): State {
    match l
    case StartFlight(id) => if id !in s.flights then s.(flights := s.flights[id := Started]) else s
    case LookUp(id, fault) =>
      if id in s.flights && s.flights[id].Started? then
        var found := if fault then DbFault else if s.row == Active then Principal else NoActiveRow;
        s.(flights := s.flights[id := Looked(Lookup(found, s.step))])
      else
        s
    case WriteBack(id, reply) =>
      if id in s.flights && s.flights[id].Looked? then Settle(cfg, s, id, s.flights[id].lookup, reply) else s
    case Deliver(id) =>
      if id in s.flights && s.flights[id].Settled? && s.flights[id].lookup.found == Principal then
        Let(s, s.flights[id].lookup, FromFlight(id))
      else
        s
    case EndFlight(id) =>
      if id in s.flights && s.flights[id].Settled? then s.(flights := s.flights - {id}) else s
    case _ => s
  }

  function Effect(cfg: Config, s: State, l: Label): State {
    if l.Create? || l.RevokeRow? then TableStep(s, l)
    else if l.Get? || l.Return? then CallerStep(s, l)
    else if l.Pass? || l.DeleteEntry? || l.ApplyLate? || l.LoseLate? then RedisStep(cfg, s, l)
    else FlightStep(cfg, s, l)
  }

  function Next(cfg: Config, s: State, l: Label): State {
    Effect(cfg, s, l).(step := s.step + 1)
  }

  function Run(cfg: Config, s: State, labels: seq<Label>): State
    decreases |labels|
  {
    if labels == [] then s else Run(cfg, Next(cfg, s, labels[0]), labels[1..])
  }

  // ---- Invariant ----

  /** A lookup that found the key was made while the row was active. */
  predicate Timely(s: State, lookup: Lookup) {
    lookup.found == Principal ==>
      lookup.step < s.step && (s.revokedAt.Some? ==> lookup.step < s.revokedAt.value)
  }

  /** An acceptance after the revocation rests on an earlier lookup: its own flight's, or one
      whose cache write was less than posTTL old when the caller read it. */
  predicate Justified(cfg: Config, s: State, a: Accept) {
    && a.lookup.found == Principal && a.lookup.step < a.step < s.step
    && (a.source.FromCache? ==>
          0 <= a.source.readAt - a.source.writtenAt < cfg.posTtl && a.source.readAt <= a.now)
    && (s.revokedAt.Some? ==> a.lookup.step < s.revokedAt.value)
  }

  ghost predicate Inv(cfg: Config, s: State) {
    && (s.row == Revoked <==> s.revokedAt.Some?)
    && (s.revokedAt.Some? ==> s.revokedAt.value < s.step)
    && FlightsInv(s) && LateInv(cfg, s) && CacheInv(cfg, s) && HitsInv(cfg, s) && AcceptsInv(cfg, s)
  }

  ghost predicate LateInv(cfg: Config, s: State) {
    forall id :: id in s.late ==> Timely(s, s.late[id]) && Worth(cfg, s.late[id])
  }

  ghost predicate HitsInv(cfg: Config, s: State) {
    forall c :: c in s.hits ==>
      var h := s.hits[c];
      && h.lookup.found == Principal && Timely(s, h.lookup)
      && 0 <= h.readAt - h.writtenAt < cfg.posTtl && h.readAt <= s.now
  }

  ghost predicate FlightsInv(s: State) {
    forall id :: id in s.flights && !s.flights[id].Started? ==> Timely(s, s.flights[id].lookup)
  }

  ghost predicate CacheInv(cfg: Config, s: State) {
    s.cache.Some? ==>
      var e := s.cache.value;
      && Timely(s, e.lookup)
      && (e.positive <==> e.lookup.found == Principal)
      && e.writtenAt <= s.now
      && e.expires == e.writtenAt + (if e.positive then cfg.posTtl else cfg.negTtl)
      && (!e.positive ==> e.lookup.found == NoActiveRow)
  }

  ghost predicate AcceptsInv(cfg: Config, s: State) {
    forall i :: 0 <= i < |s.accepts| ==> Justified(cfg, s, s.accepts[i])
  }

  /** Time has gone on: what was timely and justified still is. */
  predicate Later(s: State, s': State) {
    && s.step < s'.step && s.now <= s'.now
    && (s'.revokedAt == s.revokedAt || (s.revokedAt.None? && s'.revokedAt == Some(s.step)))
  }

  /** What a step leaves alone stays in order. */
  lemma Carried(cfg: Config, s: State, s': State)
    requires Later(s, s')
    ensures FlightsInv(s) && s'.flights == s.flights ==> FlightsInv(s')
    ensures LateInv(cfg, s) && s'.late == s.late ==> LateInv(cfg, s')
    ensures CacheInv(cfg, s) && s'.cache == s.cache ==> CacheInv(cfg, s')
    ensures HitsInv(cfg, s) && s'.hits == s.hits ==> HitsInv(cfg, s')
    ensures AcceptsInv(cfg, s) && s'.accepts == s.accepts ==> AcceptsInv(cfg, s')
  {
    if AcceptsInv(cfg, s) && s'.accepts == s.accepts {
      forall i | 0 <= i < |s'.accepts|
        ensures Justified(cfg, s', s'.accepts[i])
      {
        assert Justified(cfg, s, s.accepts[i]);
      }
    }
  }

  lemma OneMore(cfg: Config, s: State, s': State, a: Accept)
    requires Later(s, s') && AcceptsInv(cfg, s) && s'.accepts == s.accepts + [a] && Justified(cfg, s', a)
    ensures AcceptsInv(cfg, s')
  {
    forall i | 0 <= i < |s'.accepts|
      ensures Justified(cfg, s', s'.accepts[i])
    {
      if i < |s.accepts| {
        assert Justified(cfg, s, s.accepts[i]);
      }
    }
  }

  lemma TableKeeps(cfg: Config, s: State, l: Label)
    requires Inv(cfg, s) && (l.Create? || l.RevokeRow?)
    ensures Inv(cfg, Next(cfg, s, l))
  {
    hide FlightsInv, LateInv, CacheInv, HitsInv, AcceptsInv;
    Carried(cfg, s, Next(cfg, s, l));
  }

  lemma RedisKeeps(cfg: Config, s: State, l: Label)
    requires Inv(cfg, s) && (l.Pass? || l.DeleteEntry? || l.ApplyLate? || l.LoseLate?)
    ensures Inv(cfg, Next(cfg, s, l))
  {
    hide FlightsInv, LateInv, CacheInv, HitsInv, AcceptsInv, Written;
    Carried(cfg, s, Next(cfg, s, l));
    RedisKeepsCache(cfg, s, l);
    RedisKeepsLate(cfg, s, l);
  }

  lemma RedisKeepsCache(cfg: Config, s: State, l: Label)
    requires LateInv(cfg, s) && CacheInv(cfg, s) && (l.Pass? || l.DeleteEntry? || l.ApplyLate? || l.LoseLate?)
    ensures CacheInv(cfg, Next(cfg, s, l))
  {
  }

  lemma RedisKeepsLate(cfg: Config, s: State, l: Label)
    requires LateInv(cfg, s) && (l.Pass? || l.DeleteEntry? || l.ApplyLate? || l.LoseLate?)
    ensures LateInv(cfg, Next(cfg, s, l))
  {
    hide Written;
  }

  lemma CallerKeeps(cfg: Config, s: State, l: Label)
    requires Inv(cfg, s) && (l.Get? || l.Return?)
    ensures Inv(cfg, Next(cfg, s, l))
  {
    hide FlightsInv, LateInv, CacheInv, HitsInv, AcceptsInv, Live;
    Carried(cfg, s, Next(cfg, s, l));
    CallerKeepsHits(cfg, s, l);
    if l.Return? && l.caller in s.hits {
      CallerAccepted(cfg, s, l);
    }
  }

  lemma CallerKeepsHits(cfg: Config, s: State, l: Label)
    requires CacheInv(cfg, s) && HitsInv(cfg, s) && (l.Get? || l.Return?)
    ensures HitsInv(cfg, Next(cfg, s, l))
  {
  }

  lemma CallerAccepted(cfg: Config, s: State, l: Label)
    requires HitsInv(cfg, s) && AcceptsInv(cfg, s) && l.Return? && l.caller in s.hits
    ensures AcceptsInv(cfg, Next(cfg, s, l))
  {
    hide AcceptsInv;
    var s' := Next(cfg, s, l);
    OneMore(cfg, s, s', s'.accepts[|s.accepts|]);
  }

  /** What a flight's step does not touch. */
  lemma FlightFrame(cfg: Config, s: State, l: Label)
    requires l.StartFlight? || l.LookUp? || l.WriteBack? || l.Deliver? || l.EndFlight?
    ensures var s' := Next(cfg, s, l);
            && s'.step == s.step + 1 && s'.now == s.now && s'.row == s.row && s'.revokedAt == s.revokedAt
            && s'.hits == s.hits
            && (!l.WriteBack? ==> s'.cache == s.cache && s'.late == s.late)
            && (!l.Deliver? ==> s'.accepts == s.accepts)
  {
    hide Written, Worth;
  }

  lemma FlightKeeps(cfg: Config, s: State, l: Label)
    requires Inv(cfg, s) && (l.StartFlight? || l.LookUp? || l.WriteBack? || l.Deliver? || l.EndFlight?)
    ensures Inv(cfg, Next(cfg, s, l))
  {
    hide FlightsInv, LateInv, CacheInv, HitsInv, AcceptsInv, Next;
    FlightFrame(cfg, s, l);
    Carried(cfg, s, Next(cfg, s, l));
    FlightKeepsFlights(cfg, s, l);
    if l.WriteBack? {
      FlightWrote(cfg, s, l);
    } else if l.Deliver? {
      FlightAccepted(cfg, s, l);
    }
  }

  lemma FlightKeepsFlights(cfg: Config, s: State, l: Label)
    requires FlightsInv(s) && (s.row == Revoked <==> s.revokedAt.Some?)
    requires l.StartFlight? || l.LookUp? || l.WriteBack? || l.Deliver? || l.EndFlight?
    ensures FlightsInv(Next(cfg, s, l))
  {
    hide Written, Worth;
  }

  lemma FlightWrote(cfg: Config, s: State, l: Label)
    requires FlightsInv(s) && LateInv(cfg, s) && CacheInv(cfg, s) && l.WriteBack?
    ensures LateInv(cfg, Next(cfg, s, l)) && CacheInv(cfg, Next(cfg, s, l))
  {
    hide LateInv;
    FlightWroteLate(cfg, s, l);
  }

  lemma FlightWroteLate(cfg: Config, s: State, l: Label)
    requires FlightsInv(s) && LateInv(cfg, s) && l.WriteBack?
    ensures LateInv(cfg, Next(cfg, s, l))
  {
    hide Written;
  }

  lemma FlightAccepted(cfg: Config, s: State, l: Label)
    requires FlightsInv(s) && AcceptsInv(cfg, s) && l.Deliver?
    ensures AcceptsInv(cfg, Next(cfg, s, l))
  {
    hide AcceptsInv;
    var s' := Next(cfg, s, l);
    if s'.accepts == s.accepts {
      Carried(cfg, s, s');
    } else {
      OneMore(cfg, s, s', s'.accepts[|s.accepts|]);
    }
  }

  lemma StepKeepsInv(cfg: Config, s: State, l: Label)
    requires Inv(cfg, s)
    ensures Inv(cfg, Next(cfg, s, l))
  {
    hide Inv, Next;
    match l
    case Create => TableKeeps(cfg, s, l);
    case RevokeRow => TableKeeps(cfg, s, l);
    case Pass(_) => RedisKeeps(cfg, s, l);
    case DeleteEntry(_) => RedisKeeps(cfg, s, l);
    case ApplyLate(_) => RedisKeeps(cfg, s, l);
    case LoseLate(_) => RedisKeeps(cfg, s, l);
    case Get(_, _) => CallerKeeps(cfg, s, l);
    case Return(_) => CallerKeeps(cfg, s, l);
    case _ => FlightKeeps(cfg, s, l);
  }

  lemma {:induction false} RunKeepsInv(cfg: Config, s: State, labels: seq<Label>)
    requires Inv(cfg, s)
    ensures Inv(cfg, Run(cfg, s, labels))
    decreases |labels|
  {
    hide Inv, Next;
    if labels == [] {
    } else {
      StepKeepsInv(cfg, s, labels[0]);
      RunKeepsInv(cfg, Next(cfg, s, labels[0]), labels[1..]);
    }
  }

  lemma InitInv(cfg: Config)
    ensures Inv(cfg, INIT)
  {
  }

  // ---- Theorems over every run ----

  /** In every run, an acceptance that comes after the revocation goes back to a table lookup
      made before it, and is served by that lookup's own flight or by a cache read less than
      posTTL after its cache write. */
  lemma BoundedStaleness(cfg: Config, labels: seq<Label>, i: nat)
    requires var s := Run(cfg, INIT, labels);
             i < |s.accepts| && s.revokedAt.Some? && s.revokedAt.value < s.accepts[i].step
    ensures var s := Run(cfg, INIT, labels);
            var a := s.accepts[i];
            && a.lookup.found == Principal
            && a.lookup.step < s.revokedAt.value
            && (a.source.FromCache? ==>
                  0 <= a.source.readAt - a.source.writtenAt < cfg.posTtl && a.source.readAt <= a.now)
  {
    RunKeepsInv(cfg, INIT, labels);
  }

  /** A key is refused from the cache only by a lookup that found no active row, whose result was
      written less than negTTL ago; a fault of the table is never remembered. */
  lemma BoundedRefusal(cfg: Config, labels: seq<Label>)
    ensures var s := Run(cfg, INIT, labels);
            Live(s).Some? && !Live(s).value.positive ==>
              Live(s).value.lookup.found == NoActiveRow && s.now - Live(s).value.writtenAt < cfg.negTtl
  {
    hide Run, AcceptsInv, HitsInv, FlightsInv, LateInv;
    InitInv(cfg);
    RunKeepsInv(cfg, INIT, labels);
  }

  /** Nothing is left that could let the revoked key in: no live positive entry, no positive one
      that Redis may yet write, no caller that has read one and not returned, and no flight that
      looked the key up before the revocation. */
  ghost predicate Quiet(s: State) {
    && s.row == Revoked
    && (forall c :: c !in s.hits)
    && (Live(s).Some? ==> !Live(s).value.positive)
    && QuietLate(s) && QuietFlights(s)
  }

  ghost predicate QuietLate(s: State) {
    forall id :: id in s.late ==> s.late[id].found != Principal
  }

  ghost predicate QuietFlights(s: State) {
    forall id :: id in s.flights && !s.flights[id].Started? ==> s.flights[id].lookup.found != Principal
  }

  lemma QuietTableOrCaller(cfg: Config, s: State, l: Label)
    requires Quiet(s) && (l.Create? || l.RevokeRow? || l.Get? || l.Return?)
    ensures Quiet(Next(cfg, s, l)) && Next(cfg, s, l).accepts == s.accepts
  {
  }

  lemma QuietRedis(cfg: Config, s: State, l: Label)
    requires Quiet(s) && (l.Pass? || l.DeleteEntry? || l.ApplyLate? || l.LoseLate?)
    ensures Quiet(Next(cfg, s, l)) && Next(cfg, s, l).accepts == s.accepts
  {
    var s' := Next(cfg, s, l);
    assert QuietFlights(s');
    assert QuietLate(s');
  }

  lemma QuietFlight(cfg: Config, s: State, l: Label)
    requires Quiet(s) && (l.StartFlight? || l.LookUp? || l.WriteBack? || l.Deliver? || l.EndFlight?)
    ensures Quiet(Next(cfg, s, l)) && Next(cfg, s, l).accepts == s.accepts
  {
    hide QuietLate, QuietFlights, Next;
    FlightFrame(cfg, s, l);
    QuietFlightFlights(cfg, s, l);
    QuietFlightLate(cfg, s, l);
    if l.WriteBack? {
      QuietWrite(cfg, s, l);
    } else if l.Deliver? {
      QuietDelivery(cfg, s, l);
    }
  }

  lemma QuietWrite(cfg: Config, s: State, l: Label)
    requires QuietFlights(s) && l.WriteBack? && (Live(s).Some? ==> !Live(s).value.positive)
    ensures var s' := Next(cfg, s, l); Live(s').Some? ==> !Live(s').value.positive
  {
    hide QuietFlights;
    QuietFound(s, l.id);
  }

  lemma QuietDelivery(cfg: Config, s: State, l: Label)
    requires QuietFlights(s) && l.Deliver?
    ensures Next(cfg, s, l).accepts == s.accepts
  {
    hide QuietFlights;
    QuietFound(s, l.id);
  }

  lemma QuietFound(s: State, id: int)
    requires QuietFlights(s)
    ensures id in s.flights && !s.flights[id].Started? ==> s.flights[id].lookup.found != Principal
  {
  }

  lemma QuietFlightFlights(cfg: Config, s: State, l: Label)
    requires QuietFlights(s) && s.row == Revoked
    requires l.StartFlight? || l.LookUp? || l.WriteBack? || l.Deliver? || l.EndFlight?
    ensures QuietFlights(Next(cfg, s, l))
  {
    hide Written, Worth;
  }

  lemma QuietFlightLate(cfg: Config, s: State, l: Label)
    requires QuietFlights(s) && QuietLate(s)
    requires l.StartFlight? || l.LookUp? || l.WriteBack? || l.Deliver? || l.EndFlight?
    ensures QuietLate(Next(cfg, s, l))
  {
    hide Written, Worth;
  }

  lemma QuietStep(cfg: Config, s: State, l: Label)
    requires Quiet(s)
    ensures Quiet(Next(cfg, s, l)) && Next(cfg, s, l).accepts == s.accepts
  {
    hide Quiet, Next;
    if l.Create? || l.RevokeRow? || l.Get? || l.Return? {
      QuietTableOrCaller(cfg, s, l);
    } else if l.Pass? || l.DeleteEntry? || l.ApplyLate? || l.LoseLate? {
      QuietRedis(cfg, s, l);
    } else {
      QuietFlight(cfg, s, l);
    }
  }

  lemma {:induction false} QuietForever(cfg: Config, s: State, labels: seq<Label>)
    requires Quiet(s)
    ensures Run(cfg, s, labels).accepts == s.accepts && Quiet(Run(cfg, s, labels))
    decreases |labels|
  {
    hide Next, Quiet;
    if labels == [] {
    } else {
      QuietStep(cfg, s, labels[0]);
      QuietForever(cfg, Next(cfg, s, labels[0]), labels[1..]);
    }
  }

  lemma RunOne(cfg: Config, s: State, l: Label)
    ensures Run(cfg, s, [l]) == Next(cfg, s, l)
  {
    assert [l][1..] == [];
  }

  lemma RunTwo(cfg: Config, s: State, l: Label, m: Label)
    ensures Run(cfg, s, [l, m]) == Next(cfg, Next(cfg, s, l), m)
  {
    assert [l, m][1..] == [m];
    RunOne(cfg, Next(cfg, s, l), m);
  }

  lemma RunThree(cfg: Config, s: State, l: Label, m: Label, n: Label)
    ensures Run(cfg, s, [l, m, n]) == Next(cfg, Next(cfg, Next(cfg, s, l), m), n)
  {
    hide Next;
    assert [l, m, n][1..] == [m, n];
    RunTwo(cfg, Next(cfg, s, l), m, n);
  }

  /** A live positive entry, a hit in hand, a positive write that timed out, or a result that is
      waiting: each lets somebody in. */
  lemma EntryLetsIn(cfg: Config, s: State, caller: int)
    requires caller !in s.hits && Live(s).Some? && Live(s).value.positive
    ensures Run(cfg, s, [Get(caller, true), Return(caller)]).accepts != s.accepts
  {
    hide Run;
    RunTwo(cfg, s, Get(caller, true), Return(caller));
    assert |Run(cfg, s, [Get(caller, true), Return(caller)]).accepts| == |s.accepts| + 1;
  }

  lemma LateLetsIn(cfg: Config, s: State, id: int, caller: int)
    requires caller !in s.hits && LateInv(cfg, s) && id in s.late && s.late[id].found == Principal
    ensures Run(cfg, s, [ApplyLate(id), Get(caller, true), Return(caller)]).accepts != s.accepts
  {
    hide Run, CallerStep;
    var s' := Next(cfg, s, ApplyLate(id));
    EntryLetsIn(cfg, s', caller);
    RunTwo(cfg, s', Get(caller, true), Return(caller));
    RunThree(cfg, s, ApplyLate(id), Get(caller, true), Return(caller));
  }

  lemma HitLetsIn(cfg: Config, s: State, caller: int)
    requires caller in s.hits
    ensures Run(cfg, s, [Return(caller)]).accepts != s.accepts
  {
    hide Run;
    RunOne(cfg, s, Return(caller));
    assert |Run(cfg, s, [Return(caller)]).accepts| == |s.accepts| + 1;
  }

  lemma FlightLetsIn(cfg: Config, s: State, id: int) returns (labels: seq<Label>)
    requires id in s.flights && !s.flights[id].Started? && s.flights[id].lookup.found == Principal
    ensures Run(cfg, s, labels).accepts != s.accepts
  {
    hide Run;
    if s.flights[id].Settled? {
      labels := [Deliver(id)];
      RunOne(cfg, s, Deliver(id));
    } else {
      labels := [WriteBack(id, Failed), Deliver(id)];
      RunTwo(cfg, s, WriteBack(id, Failed), Deliver(id));
    }
    assert |Run(cfg, s, labels).accepts| == |s.accepts| + 1;
  }

  /** A revoked key is never accepted again, in any continuation, if and only if the state is
      quiet. In particular after a successful cache delete, once no caller with an earlier hit,
      no write that timed out and no flight with an earlier lookup is left. */
  lemma NeverAgain(cfg: Config, before: seq<Label>)
    requires Run(cfg, INIT, before).row == Revoked
    ensures var s := Run(cfg, INIT, before);
            Quiet(s) <==> forall labels :: Run(cfg, s, labels).accepts == s.accepts
  {
    hide Run, LateInv, FlightsInv, CacheInv, HitsInv, AcceptsInv, Live;
    var s := Run(cfg, INIT, before);
    InitInv(cfg);
    RunKeepsInv(cfg, INIT, before);
    if Quiet(s) {
      forall labels
        ensures Run(cfg, s, labels).accepts == s.accepts
      {
        QuietForever(cfg, s, labels);
      }
    } else if c :| c in s.hits {
      HitLetsIn(cfg, s, c);
    } else if Live(s).Some? && Live(s).value.positive {
      EntryLetsIn(cfg, s, 0);
    } else if id :| id in s.late && s.late[id].found == Principal {
      LateLetsIn(cfg, s, id, 0);
    } else {
      var id :| id in s.flights && !s.flights[id].Started? && s.flights[id].lookup.found == Principal;
      var labels := FlightLetsIn(cfg, s, id);
    }
  }

  lemma RunCons(cfg: Config, s: State, l: Label, rest: seq<Label>)
    ensures Run(cfg, s, [l] + rest) == Run(cfg, Next(cfg, s, l), rest)
  {
    assert ([l] + rest)[1..] == rest;
  }

  /** The key is created, and a flight is started and looks it up. */
  function LookedUp(cfg: Config): State {
    Next(cfg, Next(cfg, Next(cfg, INIT, Create), StartFlight(0)), LookUp(0, false))
  }

  lemma RunLookedUp(cfg: Config, rest: seq<Label>)
    ensures Run(cfg, INIT, [Create] + ([StartFlight(0)] + ([LookUp(0, false)] + rest))) == Run(cfg, LookedUp(cfg), rest)
  {
    hide Next, Run;
    var s1 := Next(cfg, INIT, Create);
    RunCons(cfg, INIT, Create, [StartFlight(0)] + ([LookUp(0, false)] + rest));
    RunCons(cfg, s1, StartFlight(0), [LookUp(0, false)] + rest);
    RunCons(cfg, Next(cfg, s1, StartFlight(0)), LookUp(0, false), rest);
  }

  lemma LookedUpState(cfg: Config)
    ensures LookedUp(cfg) == State(3, 0, Active, None, None, map[], map[], map[0 := Looked(Lookup(Principal, 2))], [])
  {
  }

  /** A lookup before the revocation, its write after the delete. */
  const LATE_WRITE := [RevokeRow] + ([DeleteEntry(true)] + ([WriteBack(0, Applied)] + ([EndFlight(0)]
    + ([Get(0, true)] + [Return(0)]))))

  /** Revoked keys do not stop authenticating at once: a flight that looked the key up before
      the revocation may write it back after the cache delete, and a later caller is let in
      from that entry. */
  lemma DeleteDoesNotSuffice(cfg: Config)
    requires cfg.posTtl > 0
    ensures var s := Run(cfg, INIT, [Create] + ([StartFlight(0)] + ([LookUp(0, false)] + LATE_WRITE)));
            && s.revokedAt == Some(3) && s.flights == map[]
            && s.accepts == [Accept(8, 0, Lookup(Principal, 2), FromCache(0, 0))]
  {
    hide Run, LookedUp;
    RunLookedUp(cfg, LATE_WRITE);
    LookedUpState(cfg);
    var s3 := LookedUp(cfg);
    var s4 := Next(cfg, s3, RevokeRow);
    var s5 := Next(cfg, s4, DeleteEntry(true));
    var s6 := Next(cfg, s5, WriteBack(0, Applied));
    var s7 := Next(cfg, s6, EndFlight(0));
    RunTwo(cfg, s7, Get(0, true), Return(0));
    var l7 := [Get(0, true)] + [Return(0)];
    assert l7 == [Get(0, true), Return(0)];
    RunCons(cfg, s6, EndFlight(0), l7);
    RunCons(cfg, s5, WriteBack(0, Applied), [EndFlight(0)] + l7);
    RunCons(cfg, s4, DeleteEntry(true), [WriteBack(0, Applied)] + ([EndFlight(0)] + l7));
    RunCons(cfg, s3, RevokeRow, [DeleteEntry(true)] + ([WriteBack(0, Applied)] + ([EndFlight(0)] + l7)));
    assert s7.flights == map[];
  }

  /** A cache hit read before the revocation, acted on after the delete and `wait` later. */
  function HeldHit(wait: nat): seq<Label> {
    [WriteBack(0, Applied)] + ([EndFlight(0)] + ([Get(0, true)] + ([RevokeRow] + ([DeleteEntry(true)]
    + ([Pass(wait)] + [Return(0)])))))
  }

  /** The entry was written, the flight is over, and a caller holds a hit. */
  function Held(cfg: Config): State {
    Next(cfg, Next(cfg, Next(cfg, LookedUp(cfg), WriteBack(0, Applied)), EndFlight(0)), Get(0, true))
  }

  lemma HeldState(cfg: Config)
    requires cfg.posTtl > 0
    ensures var lookup := Lookup(Principal, 2);
            Held(cfg) ==
            State(6, 0, Active, None, Some(Entry(true, lookup, 0, cfg.posTtl)), map[], map[0 := Hit(lookup, 0, 0)], map[], [])
  {
    hide LookedUp;
    LookedUpState(cfg);
    var lookup := Lookup(Principal, 2);
    var s5 := Next(cfg, Next(cfg, LookedUp(cfg), WriteBack(0, Applied)), EndFlight(0));
    assert s5.flights == map[];
    assert s5 == State(5, 0, Active, None, Some(Entry(true, lookup, 0, cfg.posTtl)), map[], map[], map[], []);
  }

  lemma RunHeld(cfg: Config, rest: seq<Label>)
    ensures Run(cfg, LookedUp(cfg), [WriteBack(0, Applied)] + ([EndFlight(0)] + ([Get(0, true)] + rest))) ==
            Run(cfg, Held(cfg), rest)
  {
    hide Next, Run, LookedUp;
    var s3 := LookedUp(cfg);
    var s4 := Next(cfg, s3, WriteBack(0, Applied));
    RunCons(cfg, s3, WriteBack(0, Applied), [EndFlight(0)] + ([Get(0, true)] + rest));
    RunCons(cfg, s4, EndFlight(0), [Get(0, true)] + rest);
    RunCons(cfg, Next(cfg, s4, EndFlight(0)), Get(0, true), rest);
  }

  /** Nor does the delete reach a caller that has already read the entry: with no flight around
      and the cache empty, it is still let in, however long it takes to return. */
  lemma HeldHitIsAccepted(cfg: Config, wait: nat)
    requires cfg.posTtl > 0
    ensures var s := Run(cfg, INIT, [Create] + ([StartFlight(0)] + ([LookUp(0, false)] + HeldHit(wait))));
            && s.revokedAt == Some(6) && s.flights == map[] && s.cache == None
            && s.accepts == [Accept(9, wait, Lookup(Principal, 2), FromCache(0, 0))]
  {
    hide Run, LookedUp, Held;
    var l8 := [Pass(wait)] + [Return(0)];
    RunLookedUp(cfg, HeldHit(wait));
    RunHeld(cfg, [RevokeRow] + ([DeleteEntry(true)] + l8));
    HeldState(cfg);
    var s6 := Held(cfg);
    var s7 := Next(cfg, s6, RevokeRow);
    var s8 := Next(cfg, s7, DeleteEntry(true));
    assert l8 == [Pass(wait), Return(0)];
    RunTwo(cfg, s8, Pass(wait), Return(0));
    RunCons(cfg, s7, DeleteEntry(true), l8);
    RunCons(cfg, s6, RevokeRow, [DeleteEntry(true)] + l8);
  }

  /** A write that timed out, the flight over, then the revocation and the delete. */
  const TIMED_OUT := [WriteBack(0, TimedOut)] + ([EndFlight(0)] + ([RevokeRow] + ([DeleteEntry(true)] + [])))

  /** Nor a write that timed out at the gateway: with no flight, no hit in hand and the cache empty,
      Redis applies it after the delete, and the next caller is let in. */
  lemma LateWriteIsAccepted(cfg: Config)
    requires cfg.posTtl > 0
    ensures var s := Run(cfg, INIT, [Create] + ([StartFlight(0)] + ([LookUp(0, false)] + TIMED_OUT)));
            && s.row == Revoked && s.cache == None && s.flights == map[] && s.hits == map[]
            && Run(cfg, s, [ApplyLate(0), Get(0, true), Return(0)]).accepts != s.accepts
  {
    hide Run, LookedUp;
    RunLookedUp(cfg, TIMED_OUT);
    LookedUpState(cfg);
    var s3 := LookedUp(cfg);
    var s4 := Next(cfg, s3, WriteBack(0, TimedOut));
    var s5 := Next(cfg, s4, EndFlight(0));
    assert s5.flights == map[];
    var lookup := Lookup(Principal, 2);
    assert s5 == State(5, 0, Active, None, None, map[0 := lookup], map[], map[], []);
    var s6 := Next(cfg, s5, RevokeRow);
    var s7 := Next(cfg, s6, DeleteEntry(true));
    RunCons(cfg, s3, WriteBack(0, TimedOut), [EndFlight(0)] + ([RevokeRow] + ([DeleteEntry(true)] + [])));
    RunCons(cfg, s4, EndFlight(0), [RevokeRow] + ([DeleteEntry(true)] + []));
    RunCons(cfg, s5, RevokeRow, [DeleteEntry(true)] + []);
    RunCons(cfg, s6, DeleteEntry(true), []);
    RunNone(cfg, s7);
    LateLetsIn(cfg, s7, 0, 0);
  }

  lemma RunNone(cfg: Config, s: State)
    ensures Run(cfg, s, []) == s
  {
  }
}

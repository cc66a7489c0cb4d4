/** The pricing cache: copy-on-write snapshots in front of the model_pricing table, and the
    charge computed from a rate. Writers are serialized by the cache's lock; each method is
    one critical section. */
module Pricing {
  import opened Provider
  import Backoff

  datatype Rate = Rate(model: string, currency: string, inputPer1k: int, outputPer1k: int, updatedAt: int)

  type Rates = map<string, Rate>

  /** How a write statement ended: applied and acknowledged, not applied, or applied while the
      acknowledgement was lost. */
  datatype Reply = Acknowledged | Refused | Lost

  predicate Keyed(t: Rates) {
    forall m :: m in t ==> t[m].model == m
  }

  /** A published snapshot. Readers hold on to it without a lock. */
  class RateMap {
    var m: Rates

    constructor ()
      ensures m == map[]
    {
      m := map[];
    }
  }

  /** The table. */
  class Database {
    var table: Rates

    constructor (table: Rates)
      ensures this.table == table
    {
      this.table := table;
    }

    method SelectAll() returns (rows: seq<Rate>)
      requires Keyed(table)
      ensures forall m :: m in table ==> table[m] in rows
      ensures forall r :: r in rows ==> r.model in table && table[r.model] == r
    {
      rows := [];
      var todo := table.Keys;
      while todo != {}
        invariant todo <= table.Keys
        invariant forall m :: m in table && m !in todo ==> table[m] in rows
        invariant forall r :: r in rows ==> r.model in table && table[r.model] == r
        decreases |todo|
      {
        var m :| m in todo;
        rows := rows + [table[m]];
        todo := todo - {m};
      }
    }

    method Upsert(r: Rate, reply: Reply)
      modifies this
      ensures table == if reply == Refused then old(table) else old(table)[r.model := r]
    {
      if reply != Refused {
        table := table[r.model := r];
      }
    }

    method Remove(model: string, reply: Reply) returns (affected: bool)
      modifies this
      ensures affected == (reply != Refused && model in old(table))
      ensures table == if reply == Refused then old(table) else old(table) - {model}
    {
      affected := reply != Refused && model in table;
      if reply != Refused {
        table := table - {model};
      }
    }
  }

  class PricingCache {
    var snapshot: RateMap
    const db: Database

    function View(): State
      reads this, snapshot, db
    {
      State(db.table, snapshot.m)
    }

    constructor (db: Database)
      ensures this.db == db && fresh(snapshot) && View() == State(db.table, map[])
    {
      this.db := db;
      snapshot := new RateMap();
    }

    /** Replace the snapshot by the table; a failed query or a failed row changes nothing. */
    method Reload() returns (ok: bool)
      requires Keyed(db.table)
      modifies this
      ensures View() == Apply(old(View()), Op.Reload(ok))
      ensures if ok then fresh(snapshot) else snapshot == old(snapshot)
      ensures old(snapshot).m == old(snapshot.m)
    {
      if * {
        return false;
      }
      var rows := db.SelectAll();
      var next := new RateMap();
      var i := 0;
      while i < |rows|
        invariant 0 <= i <= |rows| && fresh(next)
        invariant snapshot == old(snapshot) && db.table == old(db.table)
        invariant forall m :: m in next.m ==> m in db.table && next.m[m] == db.table[m]
        invariant forall j :: 0 <= j < i ==> rows[j].model in next.m
      {
        if * {
          return false;
        }
        next.m := next.m[rows[i].model := rows[i]];
        i := i + 1;
      }
      if * {
        return false;
      }
      assert forall m :: m in db.table ==> m in next.m by {
        forall m | m in db.table
          ensures m in next.m
        {
          var j :| 0 <= j < |rows| && rows[j] == db.table[m];
        }
      }
      snapshot := next;
      return true;
    }

    /** Copy the entries of a snapshot that are not `except` into a new one. */
    method Copy(except: Option<string>) returns (next: RateMap)
      ensures fresh(next)
      ensures next.m == if except.Some? then snapshot.m - {except.value} else snapshot.m
    {
      next := new RateMap();
      var todo := snapshot.m.Keys;
      while todo != {}
        invariant todo <= snapshot.m.Keys && fresh(next)
        invariant forall k :: k in next.m <==> k in snapshot.m && k !in todo && Some(k) != except
        invariant forall k :: k in next.m ==> next.m[k] == snapshot.m[k]
        decreases |todo|
      {
        var k :| k in todo;
        if Some(k) != except {
          next.m := next.m[k := snapshot.m[k]];
        }
        todo := todo - {k};
      }
    }

    /** Upsert one rate: table first, then a fresh snapshot with the row spliced in. */
    method Set(rate: Rate, now: int, reply: Reply) returns (ok: bool)
      requires Keyed(db.table)
      modifies this, db
      ensures ok <==> Valid(rate) && reply == Acknowledged
      ensures View() == Apply(old(View()), Op.Set(rate, now, reply))
      ensures if ok then fresh(snapshot) else snapshot == old(snapshot)
      ensures old(snapshot).m == old(snapshot.m) && Keyed(db.table)
    {
      if rate.model == "" {
        return false;
      }
      var r := rate;
      if r.currency == "" {
        r := r.(currency := "USD");
      }
      if r.inputPer1k < 0 || r.outputPer1k < 0 {
        return false;
      }
      r := r.(updatedAt := now);
      db.Upsert(r, reply);
      if reply != Acknowledged {
        return false;
      }
      var next := Copy(None);
      next.m := next.m[r.model := r];
      snapshot := next;
      return true;
    }

    /** Delete one rate; (false, true) if there was none. */
    method Delete(model: string, reply: Reply) returns (removed: bool, ok: bool)
      requires Keyed(db.table)
      modifies this, db
      ensures ok == (reply == Acknowledged)
      ensures removed == (ok && model in old(db.table))
      ensures View() == Apply(old(View()), Op.Delete(model, reply))
      ensures snapshot == old(snapshot) || fresh(snapshot)
      ensures old(snapshot).m == old(snapshot.m) && Keyed(db.table)
    {
      var affected := db.Remove(model, reply);
      if reply != Acknowledged {
        return false, false;
      }
      if !affected {
        return false, true;
      }
      if model in snapshot.m {
        snapshot := Copy(Some(model));
      }
      assert model !in old(snapshot.m) ==> old(snapshot.m) - {model} == old(snapshot.m);
      return true, true;
    }
  }

  predicate Valid(r: Rate) {
    r.model != "" && r.inputPer1k >= 0 && r.outputPer1k >= 0
  }

  /** The row an upsert leaves: currency filled in, stamped by the database. */
  function Stored(r: Rate, now: int): Rate {
    r.(currency := if r.currency == "" then "USD" else r.currency, updatedAt := now)
  }

  // ---- Agreement over every run ----

  datatype Op = Reload(ok: bool) | Set(rate: Rate, now: int, reply: Reply) | Delete(model: string, reply: Reply)

  datatype State = State(table: Rates, snapshot: Rates)

  /** What each operation does to table and snapshot. */
  function Apply(s: State, op: Op): State {
    match op
    case Reload(ok) => if ok then s.(snapshot := s.table) else s
    case Set(r, now, reply) =>
      if !Valid(r) || reply == Refused then s
      else
        State(
          s.table[r.model := Stored(r, now)],
          if reply == Acknowledged then s.snapshot[r.model := Stored(r, now)] else s.snapshot)
    case Delete(m, reply) =>
      if reply == Refused then s
      else State(s.table - {m}, if reply == Acknowledged && m in s.table then s.snapshot - {m} else s.snapshot)
  }

  function Run(s: State, ops: seq<Op>): State {
    if ops == [] then s else Apply(Run(s, ops[..|ops| - 1]), ops[|ops| - 1])
  }

  predicate AgreeOn(s: State, m: string) {
    (m in s.table <==> m in s.snapshot) && (m in s.table ==> s.table[m] == s.snapshot[m])
  }

  /** The models the cache is wrong about. At the start, those in the table. A successful reload
      and an acknowledged write clear the mark; so does a delete that found the row. A write
      whose reply was lost sets it unless the snapshot already held what was written, a lost
      delete if the snapshot holds the model. */
  predicate Stale(start: Rates, ops: seq<Op>, m: string) {
    if ops == [] then m in start
    else
      var init := ops[..|ops| - 1];
      var s := Run(State(start, map[]), init);
      match ops[|ops| - 1]
      case Reload(ok) => Stale(start, init, m) && !ok
      case Set(r, now, reply) =>
        if r.model != m || !Valid(r) || reply == Refused then Stale(start, init, m)
        else reply == Lost && !(m in s.snapshot && s.snapshot[m] == Stored(r, now))
      case Delete(n, reply) =>
        if n != m || reply == Refused || (reply == Acknowledged && m !in s.table) then Stale(start, init, m)
        else reply == Lost && m in s.snapshot
  }

  /** In every run, whatever the table held at the start: the snapshot says about a model what
      the table says, exactly when the model is not marked stale. */
  lemma {:induction false} SnapshotAgrees(start: Rates, ops: seq<Op>, m: string)
    ensures AgreeOn(Run(State(start, map[]), ops), m) <==> !Stale(start, ops, m)
  {
    hide Stored, Valid;
    if ops == [] {
    } else {
      SnapshotAgrees(start, ops[..|ops| - 1], m);
    }
  }

  /** Snapshot and table are equal exactly when no model is stale. */
  lemma {:induction false} SnapshotEqualsTable(start: Rates, ops: seq<Op>)
    ensures var s := Run(State(start, map[]), ops);
            s.snapshot == s.table <==> forall m: string :: !Stale(start, ops, m)
  {
    var s := Run(State(start, map[]), ops);
    EqualByModel(s);
    if s.snapshot == s.table {
      forall m: string
        ensures !Stale(start, ops, m)
      {
        assert AgreeOn(s, m);
        SnapshotAgrees(start, ops, m);
      }
    } else {
      var m: string :| !AgreeOn(s, m);
      SnapshotAgrees(start, ops, m);
    }
  }

  /** In particular they are equal after one successful reload with no lost reply since. */
  lemma EqualAfterReload(start: Rates, ops: seq<Op>, i: nat)
    requires i < |ops| && ops[i] == Reload(true) && NoneLost(ops, i)
    ensures var s := Run(State(start, map[]), ops); s.snapshot == s.table
  {
    hide Stale, Run;
    SnapshotEqualsTable(start, ops);
    forall m: string
      ensures !Stale(start, ops, m)
    {
      NotStale(start, ops, i, m);
    }
  }

  lemma EqualByModel(s: State)
    ensures s.snapshot == s.table <==> forall m: string :: AgreeOn(s, m)
  {
    if forall m: string :: AgreeOn(s, m) {
      forall m: string
        ensures m in s.table <==> m in s.snapshot
        ensures m in s.table ==> s.table[m] == s.snapshot[m]
      {
        assert AgreeOn(s, m);
      }
      assert s.snapshot == s.table;
    }
  }

  predicate NoneLost(ops: seq<Op>, i: nat) {
    forall j :: i <= j < |ops| ==> !LostReply(ops[j])
  }

  predicate LostReply(op: Op) {
    (op.Set? || op.Delete?) && op.reply == Lost
  }

  lemma {:induction false} NotStale(start: Rates, ops: seq<Op>, i: nat, m: string)
    requires i < |ops| && ops[i] == Reload(true) && NoneLost(ops, i)
    ensures !Stale(start, ops, m)
    decreases |ops|
  {
    var init := ops[..|ops| - 1];
    if i == |init| {
    } else {
      assert init[i] == ops[i] && forall j :: i <= j < |init| ==> !LostReply(init[j]);
      NotStale(start, init, i, m);
    }
    assert !LostReply(ops[|ops| - 1]);
  }

  /** A lost reply is what it takes: the row is in the table, the caller is told it failed, and
      lookups keep missing it. */
  lemma LostReplyDisagrees(r: Rate, now: int)
    requires Valid(r)
    ensures var s := Run(State(map[], map[]), [Reload(true), Set(r, now, Lost)]);
            r.model in s.table && r.model !in s.snapshot
  {
    var ops := [Reload(true), Set(r, now, Lost)];
    assert ops[..1] == [Reload(true)] && [Reload(true)][..0] == [];
    assert Run(State(map[], map[]), [Reload(true)]) == State(map[], map[]);
  }

  // ---- The charge ----

  /** Go's integer division truncates toward zero. */
  function TruncDiv(a: int, b: int): int
    requires b > 0
  {
    if a >= 0 then a / b else -((-a) / b)
  }

  /** Cost, and the same computation in persist, on 64-bit products. */
  function Cost(rate: Rate, prompt: int, completion: int): int {
    if rate.model == "" then 0
    else
      TruncDiv(Backoff.Wrap64(prompt * rate.inputPer1k), 1000)
      + TruncDiv(Backoff.Wrap64(completion * rate.outputPer1k), 1000)
  }

  datatype Charge = Charge(rate: Rate, prompt: int, completion: int)

  /** A priced request whose products fit 64 bits. */
  predicate Priced(c: Charge) {
    && c.rate.model != ""
    && 0 <= c.prompt * c.rate.inputPer1k <= Backoff.MAX_INT64
    && 0 <= c.completion * c.rate.outputPer1k <= Backoff.MAX_INT64
  }

  /** The exact charge, in thousandths of a micro-unit. */
  function Exact(cs: seq<Charge>): int {
    if cs == [] then 0
    else
      var c := cs[|cs| - 1];
      Exact(cs[..|cs| - 1]) + c.prompt * c.rate.inputPer1k + c.completion * c.rate.outputPer1k
  }

  function Recorded(cs: seq<Charge>): int {
    if cs == [] then 0
    else
      var c := cs[|cs| - 1];
      Recorded(cs[..|cs| - 1]) + Cost(c.rate, c.prompt, c.completion)
  }

  lemma OneCharge(x: int, y: int)
    requires 0 <= x <= Backoff.MAX_INT64 && 0 <= y <= Backoff.MAX_INT64
    ensures var t := TruncDiv(Backoff.Wrap64(x), 1000) + TruncDiv(Backoff.Wrap64(y), 1000);
            x + y - 1998 <= t * 1000 <= x + y
  {
  }

  /** Over any priced requests the recorded total never exceeds the exact charge, and falls
      short of it by at most 1998 thousandths per request. */
  lemma {:induction false} RoundingBound(cs: seq<Charge>)
    requires forall i :: 0 <= i < |cs| ==> Priced(cs[i])
    ensures Exact(cs) - 1998 * |cs| <= Recorded(cs) * 1000 <= Exact(cs)
  {
    hide TruncDiv, Priced;
    if cs == [] {
    } else {
      var c := cs[|cs| - 1];
      RoundingBound(cs[..|cs| - 1]);
      PricedFits(c);
      OneCharge(c.prompt * c.rate.inputPer1k, c.completion * c.rate.outputPer1k);
    }
  }

  lemma PricedFits(c: Charge)
    requires Priced(c)
    ensures c.rate.model != ""
    ensures 0 <= c.prompt * c.rate.inputPer1k <= Backoff.MAX_INT64
    ensures 0 <= c.completion * c.rate.outputPer1k <= Backoff.MAX_INT64
  {
  }

  /** An acknowledged write charges from then on what it says: lookups find its rates, its currency
      or USD, and the time of the write; requests are priced by the given rates. */
  lemma SetThenCharge(start: Rates, ops: seq<Op>, r: Rate, now: int, prompt: int, completion: int)
    requires Valid(r)
    ensures var s := Run(State(start, map[]), ops + [Set(r, now, Acknowledged)]);
            && r.model in s.snapshot && r.model in s.table && s.table[r.model] == s.snapshot[r.model]
            && var found := s.snapshot[r.model];
               && found.inputPer1k == r.inputPer1k && found.outputPer1k == r.outputPer1k
               && found.model == r.model && found.updatedAt == now
               && found.currency == (if r.currency == "" then "USD" else r.currency)
               && Cost(found, prompt, completion) == Cost(r, prompt, completion)
  {
    hide TruncDiv;
    var all := ops + [Set(r, now, Acknowledged)];
    assert all[..|all| - 1] == ops;
  }

  /** A write without a model or with a negative rate changes nothing, whatever the database. */
  lemma InvalidChangesNothing(start: Rates, ops: seq<Op>, r: Rate, now: int, reply: Reply)
    requires r.model == "" || r.inputPer1k < 0 || r.outputPer1k < 0
    ensures Run(State(start, map[]), ops + [Set(r, now, reply)]) == Run(State(start, map[]), ops)
  {
    var all := ops + [Set(r, now, reply)];
    assert all[..|all| - 1] == ops;
  }

  /** A request of a model without a rate costs nothing. */
  lemma UnpricedIsFree(rate: Rate, prompt: int, completion: int)
    requires rate.model == ""
    ensures Cost(rate, prompt, completion) == 0
  {
  }
}

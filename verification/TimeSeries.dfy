/** The 60-slot minute ring behind the dashboard, against the full history of records.
    Times are whole seconds since the Unix epoch. */
module TimeSeries {
  import opened Provider

  const SLOTS := 60
  const MINUTE := 60

  /** The zero time.Time, which marks a slot that was never used. */
  const ZERO_TIME: int := -62_135_596_800

  datatype Slot = Slot(start: int, success: nat, error: nat)

  datatype Point = Point(t: int, success: nat, error: nat)

  datatype Sample = Sample(now: int, failed: bool)

  function Truncate(now: int): int {
    now - now % MINUTE
  }

  function MinuteOf(now: int): int {
    now / MINUTE
  }

  function SlotIndex(bucket: int): (i: int)
    requires bucket >= 0
    ensures 0 <= i < SLOTS
  {
    (bucket / MINUTE) % SLOTS
  }

  // ---- The ring ----

  function Bump(s: Slot, bucket: int, failed: bool): Slot {
    var s' := if s.start == bucket then s else Slot(bucket, 0, 0);
    if failed then s'.(error := s'.error + 1) else s'.(success := s'.success + 1)
  }

  function Put(ring: seq<Slot>, r: Sample): seq<Slot>
    requires |ring| == SLOTS && r.now >= 0
  {
    var i := SlotIndex(Truncate(r.now));
    ring[i := Bump(ring[i], Truncate(r.now), r.failed)]
  }

  /** The bucket start of point i of a snapshot taken at `now`. */
  function BucketAt(now: int, i: int): int {
    Truncate(now) - (SLOTS - 1 - i) * MINUTE
  }

  function Show(ring: seq<Slot>, now: int, i: int): Point
    requires |ring| == SLOTS && 0 <= i < SLOTS && now >= (SLOTS - 1) * MINUTE
  {
    var bucket := BucketAt(now, i);
    var s := ring[SlotIndex(bucket)];
    if s.start == bucket then Point(s.start, s.success, s.error) else Point(bucket, 0, 0)
  }

  class Ring {
    const slots: array<Slot>

    constructor ()
      ensures slots.Length == SLOTS && fresh(slots) && slots[..] == Fresh()
    {
      slots := new Slot[SLOTS](_ => Slot(ZERO_TIME, 0, 0));
      new;
      assert forall i :: 0 <= i < SLOTS ==> slots[i] == Slot(ZERO_TIME, 0, 0);
    }

    /** Bump the slot of the current minute, reusing a stale one. */
    method Record(now: int, status: int)
      requires slots.Length == SLOTS && now >= 0
      modifies slots
      ensures slots[..] == Put(old(slots[..]), Sample(now, status >= 400))
    {
      var bucket := Truncate(now);
      var idx := SlotIndex(bucket);
      if slots[idx].start != bucket {
        slots[idx] := Slot(bucket, 0, 0);
      }
      if status >= 400 {
        slots[idx] := slots[idx].(error := slots[idx].error + 1);
      } else {
        slots[idx] := slots[idx].(success := slots[idx].success + 1);
      }
    }

    /** Sixty points, oldest first, ending at the current minute. */
    method Snapshot(now: int) returns (out: seq<Point>)
      requires slots.Length == SLOTS && now >= (SLOTS - 1) * MINUTE
      ensures |out| == SLOTS
      ensures forall i :: 0 <= i < SLOTS ==> out[i] == Show(slots[..], now, i)
    {
      out := [];
      var i := 0;
      while i < SLOTS
        invariant 0 <= i <= SLOTS && |out| == i
        invariant forall j :: 0 <= j < i ==> out[j] == Show(slots[..], now, j)
      {
        var bucket := Truncate(now) - (SLOTS - 1 - i) * MINUTE;
        var s := slots[SlotIndex(bucket)];
        if s.start != bucket {
          out := out + [Point(bucket, 0, 0)];
        } else {
          out := out + [Point(s.start, s.success, s.error)];
        }
        i := i + 1;
      }
    }
  }

  function Fresh(): (ring: seq<Slot>)
    ensures |ring| == SLOTS
  {
    seq(SLOTS, _ => Slot(ZERO_TIME, 0, 0))
  }

  // ---- The history ----

  predicate AfterEpoch(rs: seq<Sample>) {
    forall i :: 0 <= i < |rs| ==> rs[i].now >= 0
  }

  function Fold(rs: seq<Sample>): (ring: seq<Slot>)
    requires AfterEpoch(rs)
    ensures |ring| == SLOTS
  {
    if rs == [] then Fresh() else Put(Fold(rs[..|rs| - 1]), rs[|rs| - 1])
  }

  /** All records of one minute, ever. */
  function CountIn(rs: seq<Sample>, minute: int, failed: bool): nat {
    if rs == [] then 0
    else
      var r := rs[|rs| - 1];
      CountIn(rs[..|rs| - 1], minute, failed) + if MinuteOf(r.now) == minute && r.failed == failed then 1 else 0
  }

  /** Two minutes that share a slot. */
  predicate Collide(a: int, b: int) {
    a != b && a % SLOTS == b % SLOTS
  }

  /** What is left of one minute's records: those since its slot was last used by another minute. */
  function Kept(rs: seq<Sample>, minute: int, failed: bool): nat {
    if rs == [] then 0
    else
      var r, before := rs[|rs| - 1], Kept(rs[..|rs| - 1], minute, failed);
      if Collide(MinuteOf(r.now), minute) then 0
      else before + if MinuteOf(r.now) == minute && r.failed == failed then 1 else 0
  }

  /** The minute that last used a slot. */
  function Latest(rs: seq<Sample>, idx: int): Option<int> {
    if rs == [] then None
    else if MinuteOf(rs[|rs| - 1].now) % SLOTS == idx then Some(MinuteOf(rs[|rs| - 1].now))
    else Latest(rs[..|rs| - 1], idx)
  }

  /** Slot idx holds what is left of the minute that last used it. */
  predicate SlotOk(s: Slot, rs: seq<Sample>, idx: int) {
    match Latest(rs, idx)
    case None => s == Slot(ZERO_TIME, 0, 0)
    case Some(m) => m >= 0 && s == Slot(m * MINUTE, Kept(rs, m, false), Kept(rs, m, true))
  }

  lemma TruncateMinute(now: int)
    ensures Truncate(now) == MinuteOf(now) * MINUTE
    ensures Truncate(now) / MINUTE == MinuteOf(now) && Truncate(now) % MINUTE == 0
  {
  }

  /** Of a minute that is not the one its slot is used by, nothing is left. */
  lemma {:induction false} NothingKept(rs: seq<Sample>, minute: int, failed: bool)
    requires Latest(rs, minute % SLOTS) != Some(minute)
    ensures Kept(rs, minute, failed) == 0
  {
    if rs == [] {
    } else {
      if MinuteOf(rs[|rs| - 1].now) % SLOTS != minute % SLOTS {
        NothingKept(rs[..|rs| - 1], minute, failed);
      }
    }
  }

  /** The slot that takes the new record. */
  lemma {:induction false} BumpKeepsSlot(rs: seq<Sample>, s: Slot, idx: int)
    requires rs != [] && MinuteOf(rs[|rs| - 1].now) % SLOTS == idx && rs[|rs| - 1].now >= 0
    requires SlotOk(s, rs[..|rs| - 1], idx)
    ensures SlotOk(Bump(s, Truncate(rs[|rs| - 1].now), rs[|rs| - 1].failed), rs, idx)
  {
    var init, r := rs[..|rs| - 1], rs[|rs| - 1];
    var m := MinuteOf(r.now);
    TruncateMinute(r.now);
    if Latest(init, idx) != Some(m) {
      NothingKept(init, m, false);
      NothingKept(init, m, true);
    }
  }

  /** Every other slot. */
  lemma {:induction false} OthersKeepSlot(rs: seq<Sample>, s: Slot, idx: int)
    requires rs != [] && MinuteOf(rs[|rs| - 1].now) % SLOTS != idx
    requires SlotOk(s, rs[..|rs| - 1], idx)
    ensures SlotOk(s, rs, idx)
  {
    LatestInSlot(rs[..|rs| - 1], idx);
  }

  lemma {:induction false} LatestInSlot(rs: seq<Sample>, idx: int)
    ensures Latest(rs, idx).Some? ==> Latest(rs, idx).value % SLOTS == idx
  {
    if rs == [] {
    } else {
      LatestInSlot(rs[..|rs| - 1], idx);
    }
  }

  lemma {:induction false} UnfoldFold(rs: seq<Sample>)
    requires rs != [] && AfterEpoch(rs)
    ensures Fold(rs) == Put(Fold(rs[..|rs| - 1]), rs[|rs| - 1])
  {
  }

  /** After any records, in any order of time, every slot holds what is left of the minute that
      last used it. */
  lemma {:induction false} RingOk(rs: seq<Sample>, idx: int)
    requires AfterEpoch(rs) && 0 <= idx < SLOTS
    ensures SlotOk(Fold(rs)[idx], rs, idx)
  {
    hide SlotOk, Bump;
    if rs == [] {
      FreshOk(idx);
    } else {
      var r, s := rs[|rs| - 1], Fold(rs[..|rs| - 1])[idx];
      RingOk(rs[..|rs| - 1], idx);
      UnfoldFold(rs);
      TruncateMinute(r.now);
      if MinuteOf(r.now) % SLOTS == idx {
        BumpKeepsSlot(rs, s, idx);
      } else {
        OthersKeepSlot(rs, s, idx);
      }
    }
  }

  lemma FreshOk(idx: int)
    requires 0 <= idx < SLOTS
    ensures SlotOk(Fold([])[idx], [], idx)
  {
  }

  /** What a snapshot shows for a minute is what is left of it. */
  lemma {:induction false} ShowsKept(rs: seq<Sample>, now: int, i: int)
    requires AfterEpoch(rs) && 0 <= i < SLOTS && now >= (SLOTS - 1) * MINUTE
    ensures var m := MinuteOf(now) - (SLOTS - 1) + i;
            Show(Fold(rs), now, i) == Point(m * MINUTE, Kept(rs, m, false), Kept(rs, m, true))
  {
    hide Fold, Kept, Latest;
    var m := MinuteOf(now) - (SLOTS - 1) + i;
    TruncateMinute(now);
    assert BucketAt(now, i) == m * MINUTE;
    var idx := m % SLOTS;
    assert SlotIndex(m * MINUTE) == idx;
    RingOk(rs, idx);
    if Latest(rs, idx) != Some(m) {
      NothingKept(rs, m, false);
      NothingKept(rs, m, true);
    }
  }

  /** A record of the minute is followed by one of another minute in its slot. */
  ghost predicate Overwritten(rs: seq<Sample>, minute: int) {
    exists i, j :: 0 <= i < j < |rs| && MinuteOf(rs[i].now) == minute && Collide(MinuteOf(rs[j].now), minute)
  }

  lemma {:induction false} Recorded(rs: seq<Sample>, minute: int)
    ensures CountIn(rs, minute, false) + CountIn(rs, minute, true) > 0 <==>
            exists i :: 0 <= i < |rs| && MinuteOf(rs[i].now) == minute
  {
    if rs == [] {
    } else {
      var init := rs[..|rs| - 1];
      Recorded(init, minute);
      assert forall i :: 0 <= i < |init| ==> init[i] == rs[i];
    }
  }

  lemma OverwrittenStep(rs: seq<Sample>, minute: int)
    requires rs != []
    ensures var init, m := rs[..|rs| - 1], MinuteOf(rs[|rs| - 1].now);
            Overwritten(rs, minute) <==>
            Overwritten(init, minute)
            || (Collide(m, minute) && exists i :: 0 <= i < |init| && MinuteOf(init[i].now) == minute)
  {
    var init, n := rs[..|rs| - 1], |rs| - 1;
    assert forall i :: 0 <= i < n ==> init[i] == rs[i];
    if Overwritten(rs, minute) {
      var i, j :| 0 <= i < j < |rs| && MinuteOf(rs[i].now) == minute && Collide(MinuteOf(rs[j].now), minute);
      assert init[i] == rs[i];
    }
  }

  /** Nothing of a minute is lost exactly when it was never overwritten. */
  lemma {:induction false} KeptExact(rs: seq<Sample>, minute: int)
    ensures Kept(rs, minute, false) <= CountIn(rs, minute, false)
    ensures Kept(rs, minute, true) <= CountIn(rs, minute, true)
    ensures Kept(rs, minute, false) == CountIn(rs, minute, false) && Kept(rs, minute, true) == CountIn(rs, minute, true)
            <==> !Overwritten(rs, minute)
  {
    hide Overwritten;
    if rs == [] {
      NeverOverwritten(minute);
    } else {
      KeptExact(rs[..|rs| - 1], minute);
      OverwrittenStep(rs, minute);
      Recorded(rs[..|rs| - 1], minute);
    }
  }

  lemma NeverOverwritten(minute: int)
    ensures !Overwritten([], minute)
  {
  }

  /** For every sequence of records, whatever the clock did: a point of a snapshot is the full
      history's counts of its minute, exactly when no record of that minute was followed by one
      of another minute in the same slot. */
  lemma {:induction false} PointExact(rs: seq<Sample>, now: int, i: int)
    requires AfterEpoch(rs) && 0 <= i < SLOTS && now >= (SLOTS - 1) * MINUTE
    ensures var m := MinuteOf(now) - (SLOTS - 1) + i;
            Show(Fold(rs), now, i) == Point(m * MINUTE, CountIn(rs, m, false), CountIn(rs, m, true))
            <==> !Overwritten(rs, m)
  {
    hide Fold, Kept, CountIn, Overwritten, Show;
    ShowsKept(rs, now, i);
    KeptExact(rs, MinuteOf(now) - (SLOTS - 1) + i);
  }

  /** The clock may step back, but by less than one rotation of the ring. */
  ghost predicate Steady(rs: seq<Sample>) {
    forall i, j :: 0 <= i < j < |rs| ==> MinuteOf(rs[i].now) < MinuteOf(rs[j].now) + SLOTS
  }

  /** So with such a clock each point of a snapshot is exactly the full history's counts of its
      minute, in chronological order: nothing is lost within the hour, nothing leaks from an
      older rotation. */
  lemma {:induction false} SnapshotExact(rs: seq<Sample>, now: int, i: int)
    requires AfterEpoch(rs) && Steady(rs) && 0 <= i < SLOTS && now >= (SLOTS - 1) * MINUTE
    requires forall j :: 0 <= j < |rs| ==> MinuteOf(rs[j].now) <= MinuteOf(now)
    ensures var m := MinuteOf(now) - (SLOTS - 1) + i;
            Show(Fold(rs), now, i) == Point(m * MINUTE, CountIn(rs, m, false), CountIn(rs, m, true))
  {
    hide Fold, CountIn, Show;
    PointExact(rs, now, i);
  }

  /** With a clock that steps back a whole hour it fails: the records of the later minute are
      overwritten. */
  lemma HourBackLosesRecords()
    ensures var rs := [Sample(6000, false), Sample(2400, false)];
            && CountIn(rs, 100, false) == 1
            && Show(Fold(rs), 6000, SLOTS - 1) == Point(6000, 0, 0)
  {
    var a, b := Sample(6000, false), Sample(2400, false);
    var rs := [a, b];
    assert rs[..1] == [a] && [a][..0] == [];
    assert CountIn([a], 100, false) == CountIn([], 100, false) + 1;
    UnfoldFold(rs);
    UnfoldFold([a]);
  }
}

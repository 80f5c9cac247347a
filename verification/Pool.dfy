/**
 * `CacheCapacityPool`: an atomic count of the bytes available, updated by
 * compare-and-swap loops while other tasks change it too.
 */
module Pool {
  import opened Options
  import opened Model

  /** A change of the count: one of ours, from the value we saw, or another task's. */
  datatype Write = Ours(from: nat, to: nat) | Theirs(to: nat)

  ghost predicate AllTheirs(ws: seq<Write>) {
    forall i :: 0 <= i < |ws| ==> ws[i].Theirs?
  }

  /** The count after some changes. */
  ghost function After(start: nat, ws: seq<Write>): nat {
    if ws == [] then start else ws[|ws| - 1].to
  }

  /** The count had this value before one of the changes, or after all of them. */
  ghost predicate Passed(start: nat, ws: seq<Write>, v: nat) {
    exists i :: 0 <= i <= |ws| && After(start, ws[..i]) == v
  }

  lemma PassedLast(start: nat, ws: seq<Write>)
    ensures Passed(start, ws, After(start, ws))
  {
    assert ws[..|ws|] == ws;
  }

  lemma TheirsAppend(start: nat, a: seq<Write>, b: seq<Write>)
    requires AllTheirs(a) && AllTheirs(b)
    ensures AllTheirs(a + b) && After(start, a + b) == After(After(start, a), b)
  {
    if b != [] { assert (a + b)[|a + b| - 1] == b[|b| - 1]; } else { assert a + b == a; }
  }

  /** The count that the last of some changes met. */
  ghost function Met(start: nat, ws: seq<Write>): nat
    requires ws != []
  {
    After(start, ws[..|ws| - 1])
  }

  /** Changes of other tasks, then one of ours, from the count it met to w. */
  ghost predicate OneWrite(start: nat, ws: seq<Write>, w: nat) {
    ws != [] && AllTheirs(ws[..|ws| - 1]) && ws[|ws| - 1] == Ours(Met(start, ws), w)
  }

  lemma OneWriteLater(start: nat, a: seq<Write>, b: seq<Write>, w: nat)
    requires AllTheirs(a) && OneWrite(After(start, a), b, w)
    ensures OneWrite(start, a + b, w) && Met(start, a + b) == Met(After(start, a), b)
    ensures After(start, a + b) == w
  {
    assert (a + b)[..|a + b| - 1] == a + b[..|b| - 1];
    TheirsAppend(start, a, b[..|b| - 1]);
  }

  /** Without changes by others, it is the starting count that is met. */
  lemma MetAlone(start: nat, ws: seq<Write>)
    requires |ws| == 1
    ensures Met(start, ws) == start
  {
    assert ws[..0] == [];
  }

  /**
   * The atomic, together with the values that other tasks are still to store.
   * They may store any number of them before each of our accesses. Each method
   * tells the changes that happened while it ran.
   */
  class AtomicU64 {
    var value: nat
    var rivals: seq<nat>

    constructor (value: nat, rivals: seq<nat>)
      ensures this.value == value && this.rivals == rivals
    {
      this.value := value;
      this.rivals := rivals;
    }

    /** Other tasks run. */
    method Interfere() returns (ghost seen: seq<Write>)
      modifies this
      ensures AllTheirs(seen) && |seen| + |rivals| == |old(rivals)|
      ensures value == After(old(value), seen) && rivals == old(rivals)[|seen|..]
    {
      var stores: nat :| stores <= |rivals|;
      var i := 0;
      seen := [];
      while i < stores
        invariant i == |seen| <= stores <= |old(rivals)|
        invariant rivals == old(rivals)[i..]
        invariant AllTheirs(seen) && value == After(old(value), seen)
      {
        value := rivals[0];
        seen := seen + [Theirs(value)];
        rivals := rivals[1..];
        i := i + 1;
      }
    }

    method Load() returns (v: nat, ghost seen: seq<Write>)
      modifies this
      ensures AllTheirs(seen) && |seen| + |rivals| == |old(rivals)|
      ensures value == v == After(old(value), seen)
    {
      seen := Interfere();
      v := value;
    }

    /** Strong: it fails only if the value differs. */
    method CompareExchange(expected: nat, desired: nat) returns (ok: bool, ghost seen: seq<Write>)
      modifies this
      ensures value == After(old(value), seen)
      ensures ok ==>
        && OneWrite(old(value), seen, desired) && Met(old(value), seen) == expected && value == desired
        && |seen| - 1 + |rivals| == |old(rivals)|
      ensures !ok ==>
        && AllTheirs(seen) && value != expected
        && |seen| + |rivals| == |old(rivals)|
    {
      seen := Interfere();
      ok := value == expected;
      if ok {
        ghost var theirs := seen;
        value := desired;
        seen := theirs + [Ours(expected, desired)];
        assert seen[..|seen| - 1] == theirs;
      }
    }

    /**
     * All or nothing, in one atomic step. It takes the size from the count it
     * meets, or fails having met a count below the size; and it retries no more
     * often than other tasks change the count.
     */
    method Reserve(size: nat) returns (reserved: Option<nat>, ghost seen: seq<Write>, ghost failures: nat)
      modifies this
      ensures value == After(old(value), seen)
      ensures reserved.Some? ==> reserved.value == size
      ensures reserved.Some? && size == 0 ==> seen == []
      ensures reserved.Some? && size > 0 ==>
        OneWrite(old(value), seen, value) && value == Met(old(value), seen) - size
      ensures reserved.None? ==> AllTheirs(seen) && exists v: nat :: v < size && Passed(old(value), seen, v)
      ensures failures + |rivals| <= |old(rivals)|
      ensures old(rivals) == [] ==> rivals == [] && (reserved.Some? <==> size <= old(value))
      ensures old(rivals) == [] ==> value == if size <= old(value) then old(value) - size else old(value)
    {
      seen, failures := [], 0;
      if size == 0 {
        return Some(0), seen, failures;
      }
      while true
        invariant AllTheirs(seen) && value == After(old(value), seen)
        invariant |seen| + |rivals| == |old(rivals)| && failures <= |seen|
        decreases |rivals|
      {
        ghost var before := seen;
        var available, loaded := Load();
        seen := before + loaded;
        TheirsAppend(old(value), before, loaded);
        if available < size {
          PassedLast(old(value), seen);
          return None, seen, failures;
        }
        ghost var soFar := seen;
        var ok, exchanged := CompareExchange(available, available - size);
        seen := soFar + exchanged;
        if ok {
          OneWriteLater(old(value), soFar, exchanged, available - size);
          if |seen| == 1 { MetAlone(old(value), seen); }
          return Some(size), seen, failures;
        }
        TheirsAppend(old(value), soFar, exchanged);
        assert exchanged != [];
        failures := failures + 1;
      }
    }

    /** As much of the size as the count it meets allows, in one atomic step. */
    method ReserveUpTo(size: nat) returns (reserved: nat, ghost seen: seq<Write>, ghost failures: nat)
      modifies this
      ensures value == After(old(value), seen)
      ensures size == 0 ==> reserved == 0 && seen == []
      ensures size > 0 ==>
        && OneWrite(old(value), seen, value) && value == Met(old(value), seen) - reserved
        && reserved == Min(size, Met(old(value), seen))
      ensures failures + |rivals| <= |old(rivals)|
      ensures old(rivals) == [] ==> rivals == [] && reserved == Min(size, old(value))
      ensures old(rivals) == [] ==> value == old(value) - reserved
    {
      seen, failures := [], 0;
      if size == 0 {
        return size, seen, failures;
      }
      while true
        invariant AllTheirs(seen) && value == After(old(value), seen)
        invariant |seen| + |rivals| == |old(rivals)| && failures <= |seen|
        decreases |rivals|
      {
        ghost var before := seen;
        var available, loaded := Load();
        seen := before + loaded;
        TheirsAppend(old(value), before, loaded);
        var remaining := if available < size then 0 else available - size;
        ghost var soFar := seen;
        var ok, exchanged := CompareExchange(available, remaining);
        seen := soFar + exchanged;
        if ok {
          OneWriteLater(old(value), soFar, exchanged, remaining);
          if |seen| == 1 { MetAlone(old(value), seen); }
          return available - remaining, seen, failures;
        }
        TheirsAppend(old(value), soFar, exchanged);
        assert exchanged != [];
        failures := failures + 1;
      }
    }
  }

  /** `CacheCapacityReservation`: bytes of one pool. */
  class Reservation {
    const pool: AtomicU64
    var reserved: nat

    constructor (pool: AtomicU64, reserved: nat)
      ensures this.pool == pool && this.reserved == reserved
    {
      this.pool := pool;
      this.reserved := reserved;
    }

    /**
     * Adds the reservation back in one atomic step and forgets it. It panics
     * exactly when it meets a count that would overflow with the reservation.
     */
    method ReturnToPool() returns (panicked: bool, ghost seen: seq<Write>, ghost failures: nat)
      modifies this, pool
      ensures pool.value == After(old(pool.value), seen)
      ensures old(reserved) == 0 ==> !panicked && seen == []
      ensures !panicked ==> reserved == 0
      ensures !panicked && old(reserved) > 0 ==>
        && OneWrite(old(pool.value), seen, pool.value)
        && pool.value == Met(old(pool.value), seen) + old(reserved) <= U64_MAX
      ensures panicked ==> reserved == old(reserved) && AllTheirs(seen)
      ensures panicked ==> exists v: nat :: v + reserved > U64_MAX && Passed(old(pool.value), seen, v)
      ensures failures + |pool.rivals| <= |old(pool.rivals)|
      ensures old(pool.rivals) == [] ==>
        pool.rivals == [] && (panicked <==> old(reserved) > 0 && old(pool.value) + old(reserved) > U64_MAX)
      ensures old(pool.rivals) == [] && !panicked ==> pool.value == old(pool.value) + old(reserved)
    {
      seen, failures := [], 0;
      if reserved == 0 {
        return false, seen, failures;
      }
      while true
        invariant reserved == old(reserved) > 0
        invariant AllTheirs(seen) && pool.value == After(old(pool.value), seen)
        invariant |seen| + |pool.rivals| == |old(pool.rivals)| && failures <= |seen|
        decreases |pool.rivals|
      {
        ghost var before := seen;
        var current, loaded := pool.Load();
        seen := before + loaded;
        TheirsAppend(old(pool.value), before, loaded);
        if current + reserved > U64_MAX {
          PassedLast(old(pool.value), seen);
          return true, seen, failures;
        }
        ghost var soFar := seen;
        var ok, exchanged := pool.CompareExchange(current, current + reserved);
        seen := soFar + exchanged;
        if ok {
          OneWriteLater(old(pool.value), soFar, exchanged, current + reserved);
          if |seen| == 1 { MetAlone(old(pool.value), seen); }
          reserved := 0;
          return false, seen, failures;
        }
        TheirsAppend(old(pool.value), soFar, exchanged);
        assert exchanged != [];
        failures := failures + 1;
      }
    }
  }
}

/**
 * The per-topic sliding window of pyais.py (`mmsi_data[topic]`): a list of
 * (mmsi, timestamp) pairs, the rebuild that drops entries older than the
 * window, and the number of distinct MMSIs that remain.
 */
module Windows {
  import opened Payloads

  /** The window length, sixty minutes, in seconds. */
  const WindowLength: int := 3600

  /** One `(mmsi, timestamp)` entry of a topic's window. */
  datatype Sighting = Sighting(mmsi: Mmsi, at: int)

  /** Every entry is strictly younger than `cutoff`. */
  ghost predicate FreshAfter(w: seq<Sighting>, cutoff: int) {
    forall i :: 0 <= i < |w| ==> w[i].at > cutoff
  }

  /**
   * The rebuild `[(m, t) for m, t in window if t > cutoff]`: keeps, in their
   * order, exactly the entries whose timestamp is after `cutoff`.
   */
  function Evict(w: seq<Sighting>, cutoff: int): (r: seq<Sighting>)
    ensures forall e :: e in r ==> e in w && e.at > cutoff
    ensures forall e :: e in w && e.at > cutoff ==> e in r
    ensures |r| <= |w|
  {
    if w == [] then []
    else if w[0].at > cutoff then [w[0]] + Evict(w[1..], cutoff)
    else Evict(w[1..], cutoff)
  }

  /** The set comprehension `{m for m, t in window}`. */
  function Vessels(w: seq<Sighting>): set<Mmsi> {
    set e | e in w :: e.mmsi
  }

  /** `len(unique_mmsis)`: the number of distinct MMSIs in a window. */
  function Count(w: seq<Sighting>): nat {
    |Vessels(w)|
  }

  /** The window after eviction holds no entry at or before the cutoff. */
  lemma EvictLeavesFresh(w: seq<Sighting>, cutoff: int)
    ensures FreshAfter(Evict(w, cutoff), cutoff)
  {
  }

  /** Eviction filters each part of a window separately: it keeps the order. */
  lemma {:induction false} EvictAppend(a: seq<Sighting>, b: seq<Sighting>, cutoff: int)
    ensures Evict(a + b, cutoff) == Evict(a, cutoff) + Evict(b, cutoff)
  {
    if a != [] {
      assert (a + b)[1..] == a[1..] + b;
      EvictAppend(a[1..], b, cutoff);
    } else {
      assert a + b == b;
    }
  }

  /** A window whose entries are all fresh is left as it is. */
  lemma {:induction false} EvictKeepsFresh(w: seq<Sighting>, cutoff: int)
    requires FreshAfter(w, cutoff)
    ensures Evict(w, cutoff) == w
  {
    if w != [] {
      EvictKeepsFresh(w[1..], cutoff);
    }
  }

  /** Evicting twice with one cutoff is evicting once. */
  lemma EvictIdempotent(w: seq<Sighting>, cutoff: int)
    ensures Evict(Evict(w, cutoff), cutoff) == Evict(w, cutoff)
  {
    EvictLeavesFresh(w, cutoff);
    EvictKeepsFresh(Evict(w, cutoff), cutoff);
  }

  /**
   * Appending a sighting younger than the cutoff and evicting: the older
   * entries are filtered in order and the new sighting is the last entry.
   */
  lemma EvictNewest(w: seq<Sighting>, e: Sighting, cutoff: int)
    requires e.at > cutoff
    ensures Evict(w + [e], cutoff) == Evict(w, cutoff) + [e]
  {
    EvictAppend(w, [e], cutoff);
    assert Evict([e], cutoff) == [e] + Evict([], cutoff);
  }

  /** Appending a sighting at or before the cutoff changes nothing after eviction. */
  lemma EvictStale(w: seq<Sighting>, e: Sighting, cutoff: int)
    requires e.at <= cutoff
    ensures Evict(w + [e], cutoff) == Evict(w, cutoff)
  {
    EvictAppend(w, [e], cutoff);
    assert Evict([e], cutoff) == Evict([], cutoff);
  }

  /** The distinct count is positive on a non-empty window and never exceeds its length. */
  lemma {:induction false} CountBounds(w: seq<Sighting>)
    ensures Count(w) <= |w|
    ensures w != [] ==> Count(w) >= 1
  {
    if w != [] {
      CountBounds(w[1..]);
      assert Vessels(w) == Vessels(w[1..]) + {w[0].mmsi} by {
        forall m | m in Vessels(w) ensures m in Vessels(w[1..]) + {w[0].mmsi} {
          var e :| e in w && e.mmsi == m;
          if e != w[0] {
            assert e in w[1..];
          }
        }
      }
      assert w[0].mmsi in Vessels(w);
    }
  }

  /** A new sighting raises the count by one exactly when its MMSI is new to the window. */
  lemma CountAppend(w: seq<Sighting>, e: Sighting)
    ensures Count(w + [e]) == Count(w) + (if e.mmsi in Vessels(w) then 0 else 1)
  {
    assert Vessels(w + [e]) == Vessels(w) + {e.mmsi} by {
      forall m | m in Vessels(w + [e]) ensures m in Vessels(w) + {e.mmsi} {
        var x :| x in w + [e] && x.mmsi == m;
        if x != e {
          assert x in w;
        }
      }
      forall m | m in Vessels(w) ensures m in Vessels(w + [e]) {
        var x :| x in w && x.mmsi == m;
        assert x in w + [e];
      }
      assert e in w + [e];
    }
  }

}

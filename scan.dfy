/**
 * The shape every strategy scanner shares: walk the bars from a first index
 * to the end and append `(timestamp, name)` for each bar that passes a test.
 * `Hits` is the list of passing bar indices, `Signals` the events stamped
 * with the bars' timestamps.
 */
module Scan {

  type Timestamp = int

  /** One `(timestamp, name)` tuple of a signal list. */
  datatype Event = Event(timestamp: Timestamp, name: string)

  /** The indices i with lo <= i < hi at which `hit` holds, in ascending order. */
  function Hits(hit: nat -> bool, lo: nat, hi: nat): (idx: seq<nat>)
    ensures forall k :: 0 <= k < |idx| ==> lo <= idx[k] < hi && hit(idx[k])
    ensures forall k, l :: 0 <= k < l < |idx| ==> idx[k] < idx[l]
    ensures forall i :: lo <= i < hi && hit(i) ==> i in idx
    decreases hi
  {
    if hi <= lo then []
    else Hits(hit, lo, hi - 1) + (if hit(hi - 1) then [hi - 1] else [])
  }

  /** A bar index is a hit iff it is in range and passes the test. */
  lemma HitsMember(hit: nat -> bool, lo: nat, hi: nat, i: nat)
    ensures i in Hits(hit, lo, hi) <==> lo <= i < hi && hit(i)
  {
    var idx := Hits(hit, lo, hi);
    if i in idx {
      var k :| 0 <= k < |idx| && idx[k] == i;
    }
  }

  /** The events for the bar indices idx. */
  function Stamp(ts: seq<Timestamp>, idx: seq<nat>, name: string): (es: seq<Event>)
    requires forall k :: 0 <= k < |idx| ==> idx[k] < |ts|
    ensures |es| == |idx|
  {
    seq(|idx|, k requires 0 <= k < |idx| => Event(ts[idx[k]], name))
  }

  /** The signal list a scan from bar lo over all of ts produces. */
  function Signals(ts: seq<Timestamp>, hit: nat -> bool, lo: nat, name: string): (es: seq<Event>)
    ensures |es| == |Hits(hit, lo, |ts|)|
    ensures forall k :: 0 <= k < |es| ==> es[k] == Event(ts[Hits(hit, lo, |ts|)[k]], name)
  {
    Stamp(ts, Hits(hit, lo, |ts|), name)
  }

  /** Scanning one more bar appends one event exactly when that bar passes. */
  lemma StampNext(ts: seq<Timestamp>, hit: nat -> bool, lo: nat, i: nat, name: string)
    requires lo <= i < |ts|
    ensures Stamp(ts, Hits(hit, lo, i + 1), name)
         == Stamp(ts, Hits(hit, lo, i), name) + (if hit(i) then [Event(ts[i], name)] else [])
  {
    var before := Hits(hit, lo, i);
    if hit(i) {
      assert Hits(hit, lo, i + 1) == before + [i];
    } else {
      assert Hits(hit, lo, i + 1) == before;
    }
  }

  /** With strictly increasing timestamps the events come out in time order. */
  lemma SignalsChronological(ts: seq<Timestamp>, hit: nat -> bool, lo: nat, name: string)
    requires forall i, j :: 0 <= i < j < |ts| ==> ts[i] < ts[j]
    ensures var es := Signals(ts, hit, lo, name);
      forall k, l :: 0 <= k < l < |es| ==> es[k].timestamp < es[l].timestamp
  {
    var es := Signals(ts, hit, lo, name);
    var idx := Hits(hit, lo, |ts|);
    forall k, l | 0 <= k < l < |es|
      ensures es[k].timestamp < es[l].timestamp
    {
      assert idx[k] < idx[l];
    }
  }
}

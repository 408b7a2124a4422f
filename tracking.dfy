/**
 * Tracking points of a linear ad: when a point is due, what a progress tick
 * fires and what it leaves pending, and the progress tick as the source
 * writes it.
 */
module Tracking {
  import opened Wrappers
  import opened Model

  /**
   * The first time at which a point is due, or `None` when it never is: an
   * absolute offset at its time, a percentage at the first millisecond where
   * `t / d` reaches it. With no known duration the fraction of lines 451 and
   * 460 is NaN or Infinity, and no percentage is ever due.
   */
  function DueTime(o: Offset, d: Millis): Option<Millis>
  {
    match o
    case Timecode(ms) => Some(ms)
    case Percentage(pct) => if d > 0 then Some((pct * d + 99) / 100) else None
  }

  /** A point is due once the playhead has reached its due time. */
  predicate Reached(o: Offset, t: Millis, d: Millis)
  {
    DueTime(o, d).Some? && t >= DueTime(o, d).value
  }

  /**
   * Being due is the exact comparison the offset calls for: the playhead
   * against an absolute offset, or the fraction `t / d` of a known duration
   * against a percentage, compared in integers.
   */
  lemma ReachedExactly(o: Offset, t: Millis, d: Millis)
    ensures o.Timecode? ==> (Reached(o, t, d) <==> t >= o.ms)
    ensures o.Percentage? ==> (Reached(o, t, d) <==> d > 0 && t * 100 >= o.pct * d)
  {
    if o.Percentage? && d > 0 {
      var n := o.pct * d;
      var q := (n + 99) / 100;
      assert 100 * q <= n + 99 < 100 * q + 100;
      if t >= q {
        assert t * 100 >= q * 100;
      } else {
        assert t * 100 <= (q - 1) * 100;
      }
    }
  }

  /** The points a tick at time `t` fires, in queue order. */
  function Fired(ps: seq<TrackingPoint>, t: Millis, d: Millis): seq<TrackingPoint>
  {
    if ps == [] then []
    else
      var last := ps[|ps| - 1];
      Fired(ps[..|ps| - 1], t, d) + (if Reached(last.offset, t, d) then [last] else [])
  }

  /** The points a tick at time `t` leaves in the queue of unsent points. */
  function Pending(ps: seq<TrackingPoint>, t: Millis, d: Millis): seq<TrackingPoint>
  {
    if ps == [] then []
    else
      var last := ps[|ps| - 1];
      Pending(ps[..|ps| - 1], t, d) + (if Reached(last.offset, t, d) then [] else [last])
  }

  /** A tick fires exactly the queued points that are due, and keeps exactly the others. */
  lemma {:induction false} FiredPendingMembers(ps: seq<TrackingPoint>, t: Millis, d: Millis)
    ensures forall p :: p in Fired(ps, t, d) <==> p in ps && Reached(p.offset, t, d)
    ensures forall p :: p in Pending(ps, t, d) <==> p in ps && !Reached(p.offset, t, d)
  {
    if ps != [] {
      var init := ps[..|ps| - 1];
      FiredPendingMembers(init, t, d);
      assert ps == init + [ps[|ps| - 1]];
    }
  }

  /** A tick splits the queue: every point is either fired or kept, once. */
  lemma {:induction false} FiredPendingPartition(ps: seq<TrackingPoint>, t: Millis, d: Millis)
    ensures multiset(Fired(ps, t, d)) + multiset(Pending(ps, t, d)) == multiset(ps)
  {
    if ps != [] {
      var init := ps[..|ps| - 1];
      var last := ps[|ps| - 1];
      FiredPendingPartition(init, t, d);
      LastSplit(init, last, t, d);
      assert ps == init + [last];
    }
  }

  /** The last point of a queue goes to exactly one side of the split. */
  lemma LastSplit(init: seq<TrackingPoint>, last: TrackingPoint, t: Millis, d: Millis)
    ensures var f := if Reached(last.offset, t, d) then [last] else [];
            var k := if Reached(last.offset, t, d) then [] else [last];
            && Fired(init + [last], t, d) == Fired(init, t, d) + f
            && Pending(init + [last], t, d) == Pending(init, t, d) + k
            && multiset(f) + multiset(k) == multiset{last}
  {
    assert (init + [last])[..|init|] == init;
  }

  lemma ReachedMonotone(o: Offset, t1: Millis, t2: Millis, d: Millis)
    requires t1 <= t2 && Reached(o, t1, d)
    ensures Reached(o, t2, d)
  {
  }

  /**
   * Two ticks at non-decreasing times fire, between them, exactly the points
   * one tick at the later time would fire, each once, and leave the same queue.
   */
  lemma {:induction false} FiresExactlyOnce(ps: seq<TrackingPoint>, t1: Millis, t2: Millis, d: Millis)
    requires t1 <= t2
    ensures multiset(Fired(ps, t1, d)) + multiset(Fired(Pending(ps, t1, d), t2, d))
            == multiset(Fired(ps, t2, d))
    ensures Pending(Pending(ps, t1, d), t2, d) == Pending(ps, t2, d)
  {
    if ps != [] {
      var init := ps[..|ps| - 1];
      var last := ps[|ps| - 1];
      FiresExactlyOnce(init, t1, t2, d);
      var p1 := Pending(init, t1, d);
      if Reached(last.offset, t1, d) {
        ReachedMonotone(last.offset, t1, t2, d);
        assert Pending(ps, t1, d) == p1;
      } else {
        var q := p1 + [last];
        assert Pending(ps, t1, d) == q;
        assert q[..|q| - 1] == p1;
      }
    }
  }

  /** One more point of the queue either joins the fired points or the pending ones. */
  lemma TickStep(ps: seq<TrackingPoint>, i: nat, t: Millis, d: Millis)
    requires i < |ps|
    ensures Fired(ps[..i + 1], t, d) == Fired(ps[..i], t, d) + (if Reached(ps[i].offset, t, d) then [ps[i]] else [])
    ensures Pending(ps[..i + 1], t, d) == Pending(ps[..i], t, d) + (if Reached(ps[i].offset, t, d) then [] else [ps[i]])
  {
    assert ps[..i + 1][..i] == ps[..i];
  }

  /** The `track` calls for the points `ps` of ad `ad`, at time `t`, for media `src`. */
  function TrackEffects(ad: nat, ps: seq<TrackingPoint>, t: Millis, src: string): (r: seq<Effect>)
    ensures |r| == |ps|
    ensures forall i :: 0 <= i < |ps| ==> r[i] == Track(LinearOf(ad), ps[i].event, Some(t), Some(src))
  {
    seq(|ps|, i requires 0 <= i < |ps| => Track(LinearOf(ad), ps[i].event, Some(t), Some(src)))
  }

  lemma TrackEffectsAppend(ad: nat, ps: seq<TrackingPoint>, q: seq<TrackingPoint>, t: Millis, src: string)
    ensures TrackEffects(ad, ps + q, t, src) == TrackEffects(ad, ps, t, src) + TrackEffects(ad, q, t, src)
  {
    var lhs := TrackEffects(ad, ps + q, t, src);
    var rhs := TrackEffects(ad, ps, t, src) + TrackEffects(ad, q, t, src);
    assert |lhs| == |rhs|;
    forall i | 0 <= i < |lhs| ensures lhs[i] == rhs[i] {
      if i < |ps| {
        assert (ps + q)[i] == ps[i];
      } else {
        assert (ps + q)[i] == q[i - |ps|];
      }
    }
  }

  lemma TrackEffectsSnoc(ad: nat, ps: seq<TrackingPoint>, p: TrackingPoint, t: Millis, src: string)
    ensures TrackEffects(ad, ps + [p], t, src) == TrackEffects(ad, ps, t, src) + [Track(LinearOf(ad), p.event, Some(t), Some(src))]
  {
    TrackEffectsAppend(ad, ps, [p], t, src);
    assert TrackEffects(ad, [p], t, src) == [Track(LinearOf(ad), p.event, Some(t), Some(src))];
  }

  // ---- The progress tick as lines 453-465 write it ----

  /** What an as-written tick tracked before it finished or threw. */
  datatype TickOutcome = TickOutcome(tracked: seq<TrackingPoint>, threw: bool)

  /**
   * Line 460 compares the whole percentage `parseInt(p)` with the fraction
   * `time / duration`; with no duration the fraction is NaN or Infinity and
   * the comparison is false.
   */
  predicate PercentPassedAsWritten(pct: nat, t: Millis, d: Millis)
  {
    d > 0 && pct * d >= t
  }

  /**
   * Lines 453-465: a numeric offset gets the comparison of line 457 and then
   * `p.indexOf` of line 459, which throws a TypeError and ends the tick; nothing
   * is removed from the queue.
   */
  function TickAsWritten(ps: seq<TrackingPoint>, t: Millis, d: Millis): (r: TickOutcome)
    ensures |r.tracked| <= |ps|
  {
    if ps == [] then TickOutcome([], false)
    else
      match ps[0].offset
      case Timecode(_) => TickOutcome([], true)
      case Percentage(pct) =>
        var rest := TickAsWritten(ps[1..], t, d);
        if PercentPassedAsWritten(pct, t, d) then rest.(tracked := [ps[0]] + rest.tracked) else rest
  }

  /**
   * A 5 s progress point at 6 s into a 20 s ad: as written the tick throws and
   * tracks nothing; corrected, the point fires.
   */
  lemma NumericOffsetThrows()
    ensures var ps := [TrackingPoint("progress", Timecode(5000))];
            && TickAsWritten(ps, 6000, 20000) == TickOutcome([], true)
            && Fired(ps, 6000, 20000) == ps
  {
    var ps := [TrackingPoint("progress", Timecode(5000))];
    assert ps[..0] == [];
  }

  /**
   * A 25% quartile at 2 s into a 20 s ad (10%): as written it is tracked;
   * corrected, it is not due yet.
   */
  lemma PercentageComparedWithFraction()
    ensures var ps := [TrackingPoint("firstQuartile", Percentage(25))];
            && TickAsWritten(ps, 2000, 20000).tracked == ps
            && Fired(ps, 2000, 20000) == []
  {
    var ps := [TrackingPoint("firstQuartile", Percentage(25))];
    assert ps[1..] == [];
    assert ps[..0] == [];
  }

  /**
   * As written the queue is never emptied, so two ticks (at 2 s and 3 s)
   * track the same quartile twice; corrected, the second tick fires nothing
   * the first one did.
   */
  lemma AsWrittenFiresTwice()
    ensures var ps := [TrackingPoint("firstQuartile", Percentage(25))];
            && TickAsWritten(ps, 2000, 20000).tracked + TickAsWritten(ps, 3000, 20000).tracked == ps + ps
            && Fired(ps, 5000, 20000) == ps
            && Fired(Pending(ps, 5000, 20000), 6000, 20000) == []
  {
    var ps := [TrackingPoint("firstQuartile", Percentage(25))];
    assert ps[1..] == [];
    assert ps[..0] == [];
  }
}

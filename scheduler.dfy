/**
 * The insertion scheduler's pure part: resolving a fetched break's position,
 * keeping the break list sorted, and finding the mid-roll that is due.
 */
module Scheduler {
  import opened Wrappers
  import opened Model

  predicate Sorted(bs: seq<Break>)
  {
    forall i, j :: 0 <= i < j < |bs| ==> bs[i].position <= bs[j].position
  }

  /**
   * The absolute position of a fetched break, or `None` when the position is a
   * percentage and the watched element has no (truthy) duration. A percentage
   * resolves to the millisecond at or just before that fraction of the duration.
   */
  function ResolvePosition(position: Offset, duration: Millis): (p: Option<Millis>)
    ensures p.None? <==> position.Percentage? && duration == 0
    ensures position.Timecode? ==> p == Some(position.ms)
    ensures position.Percentage? && p.Some? ==>
              p.value * 100 <= position.pct * duration < p.value * 100 + 100
  {
    match position
    case Timecode(ms) => Some(ms)
    case Percentage(pct) => if duration > 0 then Some(pct * duration / 100) else None
  }

  /**
   * The number of leading breaks whose position is at most `t`: the scan of
   * `_checkForMidroll` stops at the first break after `t`.
   */
  function PassedCount(bs: seq<Break>, t: Millis): (k: nat)
    ensures k <= |bs|
    ensures forall i :: 0 <= i < k ==> bs[i].position <= t
    ensures k < |bs| ==> bs[k].position > t
  {
    if bs == [] || bs[0].position > t then 0 else 1 + PassedCount(bs[1..], t)
  }

  /**
   * `push` then `sort` by ascending position. The sort is stable and the list
   * was sorted before, so only the new break moves: it lands after every break
   * whose position is not greater than its own.
   */
  function Insert(bs: seq<Break>, b: Break): (r: seq<Break>)
    ensures |r| == |bs| + 1
  {
    if bs == [] then [b]
    else if b.position < bs[0].position then [b] + bs
    else [bs[0]] + Insert(bs[1..], b)
  }

  lemma {:induction false} InsertShape(bs: seq<Break>, b: Break)
    ensures var k := PassedCount(bs, b.position);
            Insert(bs, b) == bs[..k] + [b] + bs[k..]
  {
    if bs != [] && b.position >= bs[0].position {
      InsertShape(bs[1..], b);
      var k := PassedCount(bs[1..], b.position);
      assert bs[1..][..k] == bs[1..k + 1];
      assert bs[1..][k..] == bs[k + 1..];
      assert [bs[0]] + bs[1..k + 1] == bs[..k + 1];
    }
  }

  /**
   * Inserting into a sorted list places the new break after every break whose
   * position is not greater and before every later one; old breaks keep their order.
   */
  lemma InsertPlacement(bs: seq<Break>, b: Break)
    requires Sorted(bs)
    ensures var k := PassedCount(bs, b.position);
            && Insert(bs, b) == bs[..k] + [b] + bs[k..]
            && (forall i :: 0 <= i < k ==> bs[i].position <= b.position)
            && (forall i :: k <= i < |bs| ==> bs[i].position > b.position)
  {
    InsertShape(bs, b);
    var k := PassedCount(bs, b.position);
    forall i | k <= i < |bs| ensures bs[i].position > b.position {
      assert bs[k].position <= bs[i].position;
    }
  }

  /** Inserting keeps the list sorted. */
  lemma InsertSorted(bs: seq<Break>, b: Break)
    requires Sorted(bs)
    ensures Sorted(Insert(bs, b))
  {
    InsertPlacement(bs, b);
    var k := PassedCount(bs, b.position);
    var r := Insert(bs, b);
    forall i, j | 0 <= i < j < |r| ensures r[i].position <= r[j].position {
      var pi := if i < k then bs[i].position else if i == k then b.position else bs[i - 1].position;
      var pj := if j < k then bs[j].position else if j == k then b.position else bs[j - 1].position;
      assert r[i].position == pi && r[j].position == pj;
    }
  }

  /** Inserting adds exactly the new break: the result is a permutation of the old list plus it. */
  lemma InsertPermutation(bs: seq<Break>, b: Break)
    ensures multiset(Insert(bs, b)) == multiset(bs) + multiset{b}
  {
    InsertShape(bs, b);
    var k := PassedCount(bs, b.position);
    var lo, hi := bs[..k], bs[k..];
    assert bs == lo + hi;
    assert multiset(lo + [b] + hi) == multiset(lo) + multiset{b} + multiset(hi);
  }

  /** The index of the latest break already passed at time `t`, if any. */
  function DueBreak(bs: seq<Break>, t: Millis): (r: Option<nat>)
    ensures r.Some? ==> r.value < |bs| && bs[r.value].position <= t
    ensures r.None? <==> bs == [] || bs[0].position > t
  {
    var k := PassedCount(bs, t);
    if k == 0 then None else Some(k - 1)
  }

  /** On a sorted list, the due break is the last one whose position is at most `t`. */
  lemma DueBreakIsLatestPassed(bs: seq<Break>, t: Millis)
    requires Sorted(bs)
    ensures forall j :: 0 <= j < |bs| ==>
              (bs[j].position <= t <==> DueBreak(bs, t).Some? && j <= DueBreak(bs, t).value)
  {
    var k := PassedCount(bs, t);
    forall j | 0 <= j < |bs| && j >= k ensures bs[j].position > t {
      assert bs[k].position <= bs[j].position;
    }
  }

  /** The scan loop of `_checkForMidroll`, lines 656-662. */
  method ScanBreaks(bs: seq<Break>, t: Millis) returns (potential: Option<nat>)
    ensures potential == DueBreak(bs, t)
  {
    potential := None;
    var i := 0;
    while i < |bs|
      invariant 0 <= i <= |bs|
      invariant i <= PassedCount(bs, t)
      invariant potential == if i == 0 then None else Some(i - 1)
    {
      if bs[i].position > t {
        break;
      }
      potential := Some(i);
      i := i + 1;
    }
    assert i == PassedCount(bs, t);
  }

  /** A later time never moves the due break backwards. */
  lemma {:induction false} PassedCountMonotone(bs: seq<Break>, t1: Millis, t2: Millis)
    requires t1 <= t2
    ensures PassedCount(bs, t1) <= PassedCount(bs, t2)
  {
    if bs != [] && bs[0].position <= t1 {
      PassedCountMonotone(bs[1..], t1, t2);
    }
  }

  predicate NonDecreasing(ts: seq<Millis>)
  {
    forall i, j :: 0 <= i < j < |ts| ==> ts[i] <= ts[j]
  }

  predicate StrictlyIncreasing(ks: seq<nat>)
  {
    forall i, j :: 0 <= i < j < |ks| ==> ks[i] < ks[j]
  }

  /**
   * The indices the mid-roll check fires for, when 'timeupdate' reports the
   * times `ts` in turn and `last` is `lastPlayedMidroll` before the first.
   */
  function Fires(bs: seq<Break>, ts: seq<Millis>, last: Option<nat>): (r: seq<nat>)
    ensures |r| <= |ts|
    ensures forall i :: 0 <= i < |r| ==> r[i] < |bs|
  {
    if ts == [] then []
    else
      var due := DueBreak(bs, ts[0]);
      if due.Some? && due != last then [due.value] + Fires(bs, ts[1..], due)
      else Fires(bs, ts[1..], last)
  }

  lemma {:induction false} FiresAbove(bs: seq<Break>, ts: seq<Millis>, last: Option<nat>)
    requires NonDecreasing(ts)
    requires last.Some? && ts != [] ==> last.value < PassedCount(bs, ts[0])
    ensures StrictlyIncreasing(Fires(bs, ts, last))
    ensures last.Some? ==> forall i :: 0 <= i < |Fires(bs, ts, last)| ==> Fires(bs, ts, last)[i] > last.value
  {
    if ts != [] {
      var due := DueBreak(bs, ts[0]);
      var rest := ts[1..];
      if rest != [] {
        PassedCountMonotone(bs, ts[0], rest[0]);
      }
      if due.Some? && due != last {
        FiresAbove(bs, rest, due);
      } else {
        FiresAbove(bs, rest, last);
      }
    }
  }

  /**
   * With content time never going backwards, the mid-roll check fires each
   * break index at most once: the fired indices strictly increase.
   */
  lemma MidrollNeverRepeats(bs: seq<Break>, ts: seq<Millis>)
    requires NonDecreasing(ts)
    ensures StrictlyIncreasing(Fires(bs, ts, None))
    ensures forall i, j :: 0 <= i < j < |Fires(bs, ts, None)| ==> Fires(bs, ts, None)[i] != Fires(bs, ts, None)[j]
  {
    FiresAbove(bs, ts, None);
  }

  /** Breaks at 10 s and 30 s, 'timeupdate' at 0, 15 and 35 s: index 0 fires, then index 1. */
  lemma MidrollScenario()
    ensures Fires([Break(10000, 0), Break(30000, 1)], [0, 15000, 35000], None) == [0, 1]
  {
    var bs := [Break(10000, 0), Break(30000, 1)];
    assert PassedCount(bs, 0) == 0;
    assert PassedCount(bs[1..], 15000) == 0;
    assert PassedCount(bs, 15000) == 1;
    assert PassedCount(bs[1..][1..], 35000) == 0;
    assert PassedCount(bs[1..], 35000) == 1;
    assert PassedCount(bs, 35000) == 2;
  }

  // ---- Line 159 as written: the break keeps the unresolved position string ----

  /** A break as line 158-161 stores it: with the position it was given, not the resolved one. */
  datatype RawBreak = RawBreak(position: Offset, ad: nat)

  function FetchedBreakAsWritten(position: Offset, ad: nat): RawBreak
  {
    RawBreak(position, ad)
  }

  /**
   * Line 658 on a stored "XX%" string (or, when the parser hands back a
   * string, an "HH:MM:SS" one): it converts to NaN, and `NaN > currentTime`
   * is false, so the scan finds every such break passed.
   */
  predicate RawStopsScan(b: RawBreak, t: Millis)
  {
    false
  }

  function RawPassedCount(bs: seq<RawBreak>, t: Millis): (k: nat)
    ensures k <= |bs|
  {
    if bs == [] || RawStopsScan(bs[0], t) then 0 else 1 + RawPassedCount(bs[1..], t)
  }

  function DueBreakAsWritten(bs: seq<RawBreak>, t: Millis): Option<nat>
  {
    var k := RawPassedCount(bs, t);
    if k == 0 then None else Some(k - 1)
  }

  /**
   * As written, a break fetched for '50%' of a ten-minute content is stored
   * as the string and is due as soon as the content starts; resolved to
   * five minutes, it is not due at time 0.
   */
  lemma UnresolvedBreakDueAtStart()
    ensures DueBreakAsWritten([FetchedBreakAsWritten(Percentage(50), 0)], 0) == Some(0)
    ensures ResolvePosition(Percentage(50), 600000) == Some(300000)
    ensures DueBreak([Break(300000, 0)], 0) == None
  {
    assert RawPassedCount([FetchedBreakAsWritten(Percentage(50), 0)][1..], 0) == 0;
  }

  // ---- `lastPlayedMidroll` is an index ----

  /**
   * The mid-roll check remembers the index of the break it last played, and
   * a fetch can insert a break before it: with a break at 30 s played at
   * 35 s, a break fetched for 10 s moves it to index 1, and at 36 s the check
   * finds index 1 due and not the last one played, so the same break plays
   * again.
   */
  lemma MidrollReplaysAfterEarlierInsert()
    ensures var bs := [Break(30000, 0)];
            var bs' := Insert(bs, Break(10000, 1));
            && DueBreak(bs, 35000) == Some(0)
            && bs' == [Break(10000, 1), Break(30000, 0)]
            && DueBreak(bs', 36000) == Some(1)
            && bs'[1] == bs[0]
  {
    var bs' := [Break(10000, 1), Break(30000, 0)];
    assert PassedCount([Break(30000, 0)][1..], 35000) == 0;
    assert PassedCount(bs'[1..][1..], 36000) == 0;
  }
}

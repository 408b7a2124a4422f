/**
 * The playback-state snapshot's pure part: how `_resumeOriginalVideo` leaves
 * the watched element and what effects it has, and the seek test of the
 * buffer-aware resume.
 */
module Playback {
  import opened Wrappers
  import opened Element
  import opened Model

  /** `!this._playerState.originalSrc`: null or the empty string. */
  predicate Falsy(o: Option<string>)
  {
    o.None? || o.value == ""
  }

  /** Line 594: the element still shows the saved source, or there is none worth restoring. */
  predicate ResumesInPlace(v: Video, st: PlayerState)
  {
    st.originalSrc == Some(v.src) || Falsy(st.originalSrc)
  }

  /** The element as `_resumeOriginalVideo` leaves it (lines 593-610). */
  function ResumedVideo(v: Video, st: PlayerState, click: EventType): Video
    requires st.ended ==> st.originalSrc.Some?
  {
    var v1 := if st.ended then v
              else if ResumesInPlace(v, st) then Played(v)
              else v.(src := st.originalSrc.value);
    var v2 := ReleasedVideo(v1, click);
    if st.ended then
      v2.(autoplay := false, src := st.originalSrc.value)
    else v2
  }

  /** A resume hands the element back: controls shown, content-mode listeners bound. */
  lemma ResumeReleasesElement(v: Video, st: PlayerState, click: EventType)
    requires click == Click || click == TouchStart
    requires st.ended ==> st.originalSrc.Some?
    ensures var r := ResumedVideo(v, st, click);
            r.controls && InContentMode(r.listeners, click)
  {
    var v1 := if st.ended then v
              else if ResumesInPlace(v, st) then Played(v)
              else v.(src := st.originalSrc.value);
    ReleaseEntersContentMode(v1.listeners, click);
  }

  /** The effects of `_resumeOriginalVideo`, in order. */
  function ResumeEffects(v: Video, st: PlayerState, hasReleaseCallback: bool): seq<Effect>
  {
    (if st.ended then [] else if ResumesInPlace(v, st) then [PlayCall] else [LoadCall])
    + (if hasReleaseCallback then [Released] else [])
    + (if st.ended then [Dispatch(Ended)] else [])
  }

  /**
   * After a resume, a non-empty saved source is the element's source again,
   * whatever the break set it to; only an empty saved source is left alone.
   */
  lemma ResumeRestoresSource(v: Video, st: PlayerState, click: EventType)
    requires click == Click || click == TouchStart
    requires st.ended ==> st.originalSrc.Some?
    ensures st.originalSrc.Some? && st.originalSrc.value != "" ==> ResumedVideo(v, st, click).src == st.originalSrc.value
    ensures !st.ended && Falsy(st.originalSrc) ==> ResumedVideo(v, st, click).src == v.src
  {
  }

  /**
   * Content that had ended before the break: autoplay is cleared and exactly
   * one 'ended' event is dispatched; otherwise none is, and the element is
   * either played in place or reloaded (never both).
   */
  lemma ResumeOfEndedContent(v: Video, st: PlayerState, click: EventType, hasReleaseCallback: bool)
    requires click == Click || click == TouchStart
    requires st.ended ==> st.originalSrc.Some?
    ensures st.ended ==> !ResumedVideo(v, st, click).autoplay
    ensures Occurrences(ResumeEffects(v, st, hasReleaseCallback), Dispatch(Ended)) == if st.ended then 1 else 0
    ensures st.ended <==> PlayCall !in ResumeEffects(v, st, hasReleaseCallback) && LoadCall !in ResumeEffects(v, st, hasReleaseCallback)
    ensures !st.ended ==> (PlayCall in ResumeEffects(v, st, hasReleaseCallback) <==> ResumesInPlace(v, st))
  {
    var a := if st.ended then [] else if ResumesInPlace(v, st) then [PlayCall] else [LoadCall];
    var b := if hasReleaseCallback then [Released] else [];
    var c := if st.ended then [Dispatch(Ended)] else [];
    OccurrencesAppend(a + b, c, Dispatch(Ended));
    OccurrencesAppend(a, b, Dispatch(Ended));
    assert Occurrences(a, Dispatch(Ended)) == 0;
    assert Occurrences(b, Dispatch(Ended)) == 0;
  }

  /**
   * The round trip of a break: snapshot the element, let the ad change its
   * source and listeners, resume. A non-empty source is restored exactly, and
   * the element is back in content mode with controls shown.
   */
  lemma SnapshotRoundTrip(v: Video, st0: PlayerState, during: Video, click: EventType)
    requires click == Click || click == TouchStart
    requires v.currentSrc != ""
    ensures var st := Snapshot(st0, v);
            var r := ResumedVideo(during, st, click);
            && r.src == v.currentSrc
            && r.controls && InContentMode(r.listeners, click)
  {
  }

  /** Lines 573-574: the first seekable range reaches the point to resume at. */
  predicate Covers(seekableEnd: Option<nat>, t: Millis)
  {
    seekableEnd.Some? && seekableEnd.value >= t
  }
}

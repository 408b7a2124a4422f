/**
 * The values the ad player works with: the ad supply, ad breaks, tracking
 * points, the playback snapshot, and the log of every effect the player has
 * on the outside world.
 */
module Model {
  import opened Wrappers
  import opened Element

  /** Media time in milliseconds. */
  type Millis = nat

  /**
   * A position as the VAST timecode parser yields it: an absolute time, or a
   * whole percentage of the duration (`parseInt` of "XX%").
   */
  datatype Offset = Timecode(ms: Millis) | Percentage(pct: nat)

  datatype TrackingPoint = TrackingPoint(event: string, offset: Offset)

  /** The media file `getBestMedia` selects for the current request settings. */
  datatype AdMedia = AdMedia(src: string, duration: Millis)

  /** A linear creative: its selected media, its tracking points and its click-through URL. */
  datatype Linear = Linear(bestMedia: Option<AdMedia>, trackingPoints: seq<TrackingPoint>, clickThrough: Option<string>)

  datatype Companion = Companion(html: string, zone: string, width: nat, height: nat)

  /**
   * One VAST ad. `next` is what `getNextAd()` answers: the index of the
   * successor in the ad supply, or `None` at the end of the chain.
   */
  datatype Ad = Ad(hasData: bool, linear: Option<Linear>, companions: seq<Companion>, next: Option<nat>)

  /** Every successor link points further down the supply, so every chain is finite. */
  predicate ChainWellFormed(ads: seq<Ad>)
  {
    forall i :: 0 <= i < |ads| && ads[i].next.Some? ==> i < ads[i].next.value < |ads|
  }

  /** The argument of `_showNextAd`: a `VASTAd` instance, or anything else (an event, nothing). */
  datatype FirstArg = NotAnAd | AnAd(ad: nat)

  /** A scheduled break: its resolved position and the first ad to play. */
  datatype Break = Break(position: Millis, ad: nat)

  datatype InsertionPoint = Start | Position | End | BeforeContent

  datatype RequestSettings = RequestSettings(
    width: Option<int>,
    height: Option<int>,
    bitrate: Option<int>,
    insertionPointType: Option<InsertionPoint>,
    playbackPosition: Option<int>)

  /** `_playerState`: what is saved at takeover and restored afterwards. */
  datatype PlayerState = PlayerState(originalSrc: Option<string>, timeToResume: Millis, ended: bool, isBuffering: bool)

  /** The state `_prepareAdPlayback` saves from the element. */
  function Snapshot(st: PlayerState, v: Video): (r: PlayerState)
    ensures r.originalSrc == Some(v.currentSrc) && r.timeToResume == v.currentTime && r.ended == v.ended
    ensures r.isBuffering == st.isBuffering
  {
    st.(originalSrc := Some(v.currentSrc), timeToResume := v.currentTime, ended := v.ended)
  }

  /** What a `track` call reports on: the linear creative of an ad, or one of its companions. */
  datatype TrackTarget = LinearOf(ad: nat) | CompanionOf(ad: nat, index: nat)

  /** One effect of the player on the outside world, in the order it happens. */
  datatype Effect =
    | Track(target: TrackTarget, event: string, time: Option<Millis>, media: Option<string>)
    | AdStarted(duration: Millis)      // skipHandler.start
    | AdsEnded                         // skipHandler.end
    | TookOver                         // takeoverCallbacks.onTakeover
    | Released                         // takeoverCallbacks.onRelease
    | RenderCompanion(ad: nat, index: nat)  // companionHandler
    | PlayCall | PauseCall | LoadCall     // element.play(), pause(), load()
    | OpenWindow(url: string)          // window.open(url, '_blank')
    | PreventDefault                   // e.preventDefault() on the click event
    | Dispatch(eventType: EventType)     // a synthesised DOM event on the element

  /** How many times `e` occurs in the log `log`. */
  function Occurrences(log: seq<Effect>, e: Effect): (n: nat)
    ensures n <= |log|
    ensures n == 0 <==> e !in log
  {
    if log == [] then 0 else (if log[0] == e then 1 else 0) + Occurrences(log[1..], e)
  }

  lemma {:induction false} OccurrencesAppend(a: seq<Effect>, b: seq<Effect>, e: Effect)
    ensures Occurrences(a + b, e) == Occurrences(a, e) + Occurrences(b, e)
  {
    if a != [] {
      assert (a + b)[1..] == a[1..] + b;
      OccurrencesAppend(a[1..], b, e);
    } else {
      assert a + b == b;
    }
  }

  /** Regrouping a log built by appends. */
  lemma LogAssoc(a: seq<Effect>, b: seq<Effect>, c: seq<Effect>)
    ensures a + b + c == a + (b + c)
  {
  }
}

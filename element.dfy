/**
 * The watched HTML video element, as a plain record: the attributes the ad
 * player reads or writes, and the set of event listeners registered on it.
 * Listener registration is a set operation, as `addEventListener` with the
 * same callback twice registers it once.
 */
module Element {
  import opened Wrappers

  datatype EventType = Play | Click | TouchStart | CanPlay | TimeUpdate | Ended | Error

  /** The player's bound callbacks that it registers on the element. */
  datatype Handler =
    | OnAdPlay | OnAdClick | OnAdClickToResume | OnAdCanPlay | OnAdTick | ShowNextAd | OnAdError
    | CheckForPreroll | CheckForMidroll | CheckForPostroll | OnVideoCanPlay

  datatype Listener = Listener(event: EventType, handler: Handler)

  /**
   * Times are in milliseconds; `duration == 0` stands for an unknown (NaN or
   * zero, hence falsy) duration; `seekableEnd` is the end of the first seekable
   * range, `None` when there is no seekable range.
   */
  datatype Video = Video(
    isVideo: bool,
    src: string,
    currentSrc: string,
    currentTime: nat,
    duration: nat,
    ended: bool,
    paused: bool,
    controls: bool,
    autoplay: bool,
    seekableEnd: Option<nat>,
    listeners: set<Listener>)

  /** The click event the player listens for: touch on an iPad, mouse click elsewhere. */
  function ClickEventFor(isIPad: bool): (e: EventType)
    ensures e == Click || e == TouchStart
    ensures isIPad <==> e == TouchStart
  {
    if isIPad then TouchStart else Click
  }

  /** `play()` and `pause()` as seen in the record. */
  function Played(v: Video): (r: Video)
    ensures !r.paused
  {
    v.(paused := false)
  }

  function Paused(v: Video): (r: Video)
    ensures r.paused
  {
    v.(paused := true)
  }

  /** The listeners `_takeover` registers for ad mode. */
  function AdModeListeners(click: EventType): set<Listener>
  {
    {Listener(Play, OnAdPlay), Listener(click, OnAdClick), Listener(CanPlay, OnAdCanPlay),
     Listener(TimeUpdate, OnAdTick), Listener(Ended, ShowNextAd), Listener(Error, OnAdError)}
  }

  /** The listeners `_release` registers for content mode (and `_takeover` removes). */
  function ContentModeListeners(): set<Listener>
  {
    {Listener(CanPlay, OnVideoCanPlay), Listener(Play, CheckForPreroll),
     Listener(TimeUpdate, CheckForMidroll), Listener(Ended, CheckForPostroll)}
  }

  /** The listeners `_release` removes as written (lines 260-265): the 'error' listener is not among them. */
  function ReleasedListenersAsWritten(click: EventType): set<Listener>
  {
    {Listener(Play, OnAdPlay), Listener(click, OnAdClick), Listener(click, OnAdClickToResume),
     Listener(CanPlay, OnAdCanPlay), Listener(TimeUpdate, OnAdTick), Listener(Ended, ShowNextAd)}
  }

  /** The listeners a release removes: every ad-mode listener, the 'error' one included. */
  function ReleasedListeners(click: EventType): set<Listener>
  {
    ReleasedListenersAsWritten(click) + {Listener(Error, OnAdError)}
  }

  /** The listeners `watchPlayer` registers (no 'canplay' one). */
  function WatchListeners(): set<Listener>
  {
    {Listener(Play, CheckForPreroll), Listener(TimeUpdate, CheckForMidroll), Listener(Ended, CheckForPostroll)}
  }

  predicate InAdMode(ls: set<Listener>, click: EventType)
  {
    AdModeListeners(click) <= ls && ls !! ContentModeListeners()
  }

  predicate InContentMode(ls: set<Listener>, click: EventType)
  {
    ContentModeListeners() <= ls && ls !! ReleasedListeners(click)
  }

  /** The rebinding of `_takeover`: ad-mode listeners added, content-mode ones removed. */
  function TakeoverListeners(ls: set<Listener>, click: EventType): set<Listener>
  {
    ls + AdModeListeners(click) - ContentModeListeners()
  }

  /** The rebinding of `_release`: ad-mode listeners removed, content-mode ones added. */
  function ReleaseListeners(ls: set<Listener>, click: EventType): set<Listener>
  {
    ls - ReleasedListeners(click) + ContentModeListeners()
  }

  /** The rebinding of `_release` as written, which leaves the 'error' listener bound. */
  function ReleaseListenersAsWritten(ls: set<Listener>, click: EventType): set<Listener>
  {
    ls - ReleasedListenersAsWritten(click) + ContentModeListeners()
  }

  /**
   * After `_takeover` the element is in ad mode; every other listener stays,
   * and nothing but the ad-mode listeners is added.
   */
  lemma TakeoverEntersAdMode(ls: set<Listener>, click: EventType)
    ensures var r := TakeoverListeners(ls, click);
            && InAdMode(r, click)
            && (forall l :: l in ls && l !in ContentModeListeners() ==> l in r)
            && (forall l :: l in r ==> l in ls || l in AdModeListeners(click))
  {
  }

  /**
   * After `_release` the element is in content mode; every listener it does
   * not remove stays, and nothing but the content-mode listeners is added.
   */
  lemma ReleaseEntersContentMode(ls: set<Listener>, click: EventType)
    requires click == Click || click == TouchStart
    ensures var r := ReleaseListeners(ls, click);
            && InContentMode(r, click)
            && (forall l :: l in ls && l !in ReleasedListeners(click) ==> l in r)
            && (forall l :: l in r ==> l in ls || l in ContentModeListeners())
  {
  }

  /** The element as `_takeover` leaves it. */
  function TakenOver(v: Video, click: EventType): Video
  {
    v.(controls := false, listeners := TakeoverListeners(v.listeners, click))
  }

  /** The element as `_release` leaves it. */
  function ReleasedVideo(v: Video, click: EventType): Video
  {
    v.(controls := true, listeners := ReleaseListeners(v.listeners, click))
  }

  /**
   * As written, a takeover followed by a release leaves the listeners exactly
   * as a bare release would, except that the ad-mode 'error' listener stays
   * registered in content mode.
   */
  lemma TakeoverReleaseLeaksErrorListener(ls: set<Listener>, click: EventType)
    requires click == Click || click == TouchStart
    ensures ReleaseListenersAsWritten(TakeoverListeners(ls, click), click)
            == ReleaseListenersAsWritten(ls, click) + {Listener(Error, OnAdError)}
  {
    var lhs := ReleaseListenersAsWritten(TakeoverListeners(ls, click), click);
    var rhs := ReleaseListenersAsWritten(ls, click) + {Listener(Error, OnAdError)};
    forall l | l in lhs ensures l in rhs {
    }
    forall l | l in rhs ensures l in lhs {
    }
  }

  /**
   * With the 'error' listener removed too, a takeover followed by a release
   * leaves the listeners exactly as a bare release would: no ad-mode listener
   * survives a break.
   */
  lemma TakeoverReleaseRestoresListeners(ls: set<Listener>, click: EventType)
    requires click == Click || click == TouchStart
    ensures ReleaseListeners(TakeoverListeners(ls, click), click) == ReleaseListeners(ls, click)
    ensures ReleaseListeners(TakeoverListeners(ls, click), click) !! AdModeListeners(click)
  {
    var lhs := ReleaseListeners(TakeoverListeners(ls, click), click);
    var rhs := ReleaseListeners(ls, click);
    forall l | l in lhs ensures l in rhs {
    }
    forall l | l in rhs ensures l in lhs {
    }
  }
}

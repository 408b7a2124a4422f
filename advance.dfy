/**
 * The advance loop `_showNextAd` as functions on values: from the part of
 * the player it changes and the settings it consults, the state it leaves.
 */
module Advance {
  import opened Wrappers
  import opened Element
  import opened Model
  import opened Sequencing
  import opened Playback

  /** What `_showNextAd` consults and never changes. */
  datatype Settings = Settings(adsEnabled: bool, companionHandler: Option<Companion -> bool>,
                               hasStartHandler: bool, hasEndHandler: bool, hasReleaseCallback: bool,
                               clickEvent: EventType, playerState: PlayerState)

  predicate SettingsValid(h: Settings)
  {
    && (h.clickEvent == Click || h.clickEvent == TouchStart)
    && (h.playerState.ended ==> h.playerState.originalSrc.Some?)
  }

  /** The part of the player `_showNextAd` changes. */
  datatype AdState = AdState(activeAd: Option<nat>, adVideo: Option<AdMedia>, adPlaying: bool,
                             unsent: seq<TrackingPoint>, player: Video, effects: seq<Effect>)

  /** The effects of giving up: the ads-ended handler, then `_resumeOriginalVideo`. */
  function EndingEffects(h: Settings, v: Video): seq<Effect>
  {
    (if h.hasEndHandler then [AdsEnded] else []) + ResumeEffects(v, h.playerState, h.hasReleaseCallback)
  }

  /**
   * The loop from candidate `c` on, with media `media`, unsent points
   * `unsent`, the element `v` and the log so far: an ad without data is
   * passed over, an ad with data has its companions dispatched and is played
   * if it has media; disabled ads or the end of the chain resume the content.
   */
  function Walk(ads: seq<Ad>, h: Settings, c: Option<nat>, media: Option<AdMedia>, unsent: seq<TrackingPoint>,
                v: Video, log: seq<Effect>): (s: AdState)
    requires ChainWellFormed(ads) && InSupply(ads, c) && SettingsValid(h)
    ensures !s.adPlaying && InSupply(ads, s.activeAd)
    decreases Rank(ads, c)
  {
    if !h.adsEnabled || c.None? then
      AdState(c, media, false, unsent, ResumedVideo(v, h.playerState, h.clickEvent), log + EndingEffects(h, v))
    else
      var a := ads[c.value];
      if !a.hasData then
        Walk(ads, h, a.next, media, unsent, v, log)
      else
        var log' := log + CompanionDispatch(c.value, a.companions, h.companionHandler, |a.companions|);
        if !HasMedia(a) then
          Walk(ads, h, a.next, None, unsent, v, log')
        else
          var linear := a.linear.value;
          AdState(c, linear.bestMedia, false, linear.trackingPoints, v.(src := linear.bestMedia.value.src),
                  log' + PlayAdEffects(h.hasStartHandler, linear.bestMedia.value))
  }

  /**
   * What the loop leaves: the log only grows; when it plays an ad, that ad is
   * playable and its media, tracking points and source are loaded; otherwise
   * the unsent points are untouched and the content is resumed.
   */
  lemma {:induction false} WalkOutcome(ads: seq<Ad>, h: Settings, c: Option<nat>, media: Option<AdMedia>,
                                       unsent: seq<TrackingPoint>, v: Video, log: seq<Effect>)
    requires ChainWellFormed(ads) && InSupply(ads, c) && SettingsValid(h)
    ensures var s := Walk(ads, h, c, media, unsent, v, log);
            && |log| <= |s.effects| && s.effects[..|log|] == log
            && (h.adsEnabled && s.activeAd.Some? ==>
                  var a := ads[s.activeAd.value];
                  && Playable(a)
                  && s.adVideo == a.linear.value.bestMedia
                  && s.unsent == a.linear.value.trackingPoints
                  && s.player == v.(src := a.linear.value.bestMedia.value.src))
            && (!(h.adsEnabled && s.activeAd.Some?) ==>
                  s.unsent == unsent && s.player == ResumedVideo(v, h.playerState, h.clickEvent))
    decreases Rank(ads, c)
  {
    if h.adsEnabled && c.Some? {
      var a := ads[c.value];
      if !a.hasData {
        WalkOutcome(ads, h, a.next, media, unsent, v, log);
      } else {
        var log' := log + CompanionDispatch(c.value, a.companions, h.companionHandler, |a.companions|);
        if !HasMedia(a) {
          WalkOutcome(ads, h, a.next, None, unsent, v, log');
          var s' := Walk(ads, h, a.next, None, unsent, v, log');
          assert s'.effects[..|log|] == s'.effects[..|log'|][..|log|];
        } else {
          var linear := a.linear.value;
          var fx := log' + PlayAdEffects(h.hasStartHandler, linear.bestMedia.value);
          assert fx[..|log|] == log;
        }
      }
    } else {
      assert (log + EndingEffects(h, v))[..|log|] == log;
    }
  }

  predicate CanAdvance(ads: seq<Ad>, h: Settings, first: FirstArg, s: AdState)
  {
    ChainWellFormed(ads) && InSupply(ads, s.activeAd) && (first.AnAd? ==> first.ad < |ads|) && SettingsValid(h)
  }

  /** `_showNextAd(first)`: the 'complete' track of an ad that was playing, then the loop from the candidate. */
  function AdvanceFrom(ads: seq<Ad>, h: Settings, first: FirstArg, s0: AdState): AdState
    requires CanAdvance(ads, h, first, s0)
  {
    Walk(ads, h, StartOf(ads, first, s0.activeAd), s0.adVideo, s0.unsent, s0.player,
         s0.effects + CompleteEffects(s0.activeAd, s0.adVideo, s0.adPlaying, s0.player.currentTime))
  }

  /** With no ad to start from, an advance ends the ads at once. */
  lemma AdvanceFromNothing(ads: seq<Ad>, h: Settings, s: AdState)
    requires CanAdvance(ads, h, NotAnAd, s) && s.activeAd.None?
    ensures AdvanceFrom(ads, h, NotAnAd, s)
            == AdState(None, s.adVideo, false, s.unsent, ResumedVideo(s.player, h.playerState, h.clickEvent),
                       s.effects + EndingEffects(h, s.player))
  {
    assert s.effects + [] == s.effects;
  }

  /**
   * The step-by-step loop against its declarative description: it stops at
   * the first playable ad on the chain (or at none), and `adVideo` ends as
   * the walk over the chain leaves it.
   */
  lemma {:induction false} WalkPlaysFirstPlayable(ads: seq<Ad>, h: Settings, c: Option<nat>, media: Option<AdMedia>,
                                                  unsent: seq<TrackingPoint>, v: Video, log: seq<Effect>)
    requires ChainWellFormed(ads) && InSupply(ads, c) && SettingsValid(h)
    ensures var s := Walk(ads, h, c, media, unsent, v, log);
            && s.activeAd == (if h.adsEnabled then FirstPlayable(ads, c) else c)
            && s.adVideo == (if h.adsEnabled then WalkMedia(ads, c, media) else media)
    decreases Rank(ads, c)
  {
    if h.adsEnabled && c.Some? {
      var a := ads[c.value];
      if !a.hasData {
        WalkPlaysFirstPlayable(ads, h, a.next, media, unsent, v, log);
      } else if !HasMedia(a) {
        var d := CompanionDispatch(c.value, a.companions, h.companionHandler, |a.companions|);
        WalkPlaysFirstPlayable(ads, h, a.next, None, unsent, v, log + d);
      }
    }
  }

  /** What closes the loop's log: the start effects of the ad it plays, or the ending effects. */
  function WalkTail(ads: seq<Ad>, h: Settings, c: Option<nat>, v: Video): seq<Effect>
    requires ChainWellFormed(ads) && InSupply(ads, c) && SettingsValid(h)
  {
    var pick := FirstPlayable(ads, c);
    if h.adsEnabled && pick.Some?
    then PlayAdEffects(h.hasStartHandler, ads[pick.value].linear.value.bestMedia.value)
    else EndingEffects(h, v)
  }

  /**
   * The log the loop leaves: the companion dispatch of every ad with data on
   * the way, then the played ad's start effects or, when it plays none, the
   * ending effects.
   */
  lemma {:induction false} WalkLog(ads: seq<Ad>, h: Settings, c: Option<nat>, media: Option<AdMedia>,
                                   unsent: seq<TrackingPoint>, v: Video, log: seq<Effect>)
    requires ChainWellFormed(ads) && InSupply(ads, c) && SettingsValid(h)
    ensures Walk(ads, h, c, media, unsent, v, log).effects
            == log + (if h.adsEnabled then WalkEffects(ads, c, h.companionHandler) else []) + WalkTail(ads, h, c, v)
    decreases Rank(ads, c)
  {
    if h.adsEnabled && c.Some? {
      var a := ads[c.value];
      if !a.hasData {
        WalkLog(ads, h, a.next, media, unsent, v, log);
      } else if !HasMedia(a) {
        var d := CompanionDispatch(c.value, a.companions, h.companionHandler, |a.companions|);
        WalkLog(ads, h, a.next, None, unsent, v, log + d);
        WalkLogPassMedia(ads, h, c, media, unsent, v, log);
      }
    }
  }

  /** The step of `WalkLog` past an ad with data but no media: its companion dispatch joins the log. */
  lemma WalkLogPassMedia(ads: seq<Ad>, h: Settings, c: Option<nat>, media: Option<AdMedia>,
                         unsent: seq<TrackingPoint>, v: Video, log: seq<Effect>)
    requires ChainWellFormed(ads) && InSupply(ads, c) && SettingsValid(h) && h.adsEnabled
    requires c.Some? && ads[c.value].hasData && !HasMedia(ads[c.value])
    requires var a := ads[c.value];
             var d := CompanionDispatch(c.value, a.companions, h.companionHandler, |a.companions|);
             Walk(ads, h, a.next, None, unsent, v, log + d).effects
             == log + d + WalkEffects(ads, a.next, h.companionHandler) + WalkTail(ads, h, a.next, v)
    ensures Walk(ads, h, c, media, unsent, v, log).effects
            == log + WalkEffects(ads, c, h.companionHandler) + WalkTail(ads, h, c, v)
  {
    var a := ads[c.value];
    var d := CompanionDispatch(c.value, a.companions, h.companionHandler, |a.companions|);
    var w := WalkEffects(ads, a.next, h.companionHandler);
    var tail := WalkTail(ads, h, a.next, v);
    assert Walk(ads, h, c, media, unsent, v, log) == Walk(ads, h, a.next, None, unsent, v, log + d);
    assert WalkEffects(ads, c, h.companionHandler) == d + w;
    assert WalkTail(ads, h, c, v) == tail;
    LogAssoc(log, d, w);
  }

  // ---- The flag `adPlaying` across an advance, lines 284-286 ----

  /**
   * `_showNextAd` as written, as far as `adPlaying` goes: nothing clears the
   * flag after 'complete' is tracked, so when the loop plays another ad the
   * flag keeps the value it had; only the resume of the content clears it.
   */
  function AdvanceFromAsWritten(ads: seq<Ad>, h: Settings, first: FirstArg, s0: AdState): AdState
    requires CanAdvance(ads, h, first, s0)
  {
    var s := AdvanceFrom(ads, h, first, s0);
    if h.adsEnabled && s.activeAd.Some? then s.(adPlaying := s0.adPlaying) else s
  }

  /**
   * The first ad of a chain has played to its end and its successor is
   * playable: the advance makes the successor active, and its first 'play'
   * tracks 'resume' as written but 'start' once the flag is cleared.
   */
  lemma SecondAdTracksResumeAsWritten(ads: seq<Ad>, h: Settings, s0: AdState)
    requires CanAdvance(ads, h, NotAnAd, s0) && h.adsEnabled
    requires s0.activeAd == Some(0) && s0.adPlaying && s0.adVideo.Some?
    requires 1 < |ads| && ads[0].next == Some(1) && Playable(ads[1])
    ensures var s := AdvanceFromAsWritten(ads, h, NotAnAd, s0);
            s.activeAd == Some(1) && PlayTrackEvent(s.adPlaying) == "resume"
    ensures var s := AdvanceFrom(ads, h, NotAnAd, s0);
            s.activeAd == Some(1) && PlayTrackEvent(s.adPlaying) == "start"
  {
  }

  // ---- The 'error' listener after a break ----

  /**
   * A media error on the content after a break. As written the 'error'
   * listener is still bound, and `_onAdError` then reaches line 291 on the
   * null active ad; even with that line corrected, the advance ends the ads a
   * second time and resumes the content again. With the release removing the
   * listener, the handler is no longer bound.
   */
  lemma ContentErrorAfterBreak(ads: seq<Ad>, h: Settings, s: AdState, ls: set<Listener>)
    requires CanAdvance(ads, h, NotAnAd, s) && s.activeAd.None? && !s.adPlaying
    ensures Listener(Error, OnAdError) in ReleaseListenersAsWritten(TakeoverListeners(ls, h.clickEvent), h.clickEvent)
    ensures StartAsWritten(ads, NotAnAd, s.activeAd) == NullDereference
    ensures var r := AdvanceFrom(ads, h, NotAnAd, s);
            && r.effects == s.effects + EndingEffects(h, s.player)
            && r.player == ResumedVideo(s.player, h.playerState, h.clickEvent)
    ensures Listener(Error, OnAdError) !in ReleaseListeners(TakeoverListeners(ls, h.clickEvent), h.clickEvent)
  {
    AdvanceFromNothing(ads, h, s);
  }
}

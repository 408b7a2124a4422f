/**
 * `VASTAdPlayer`: the ad-insertion state machine. One object watches one
 * video element; its event handlers are the methods below, each a
 * synchronous transition over the player's fields, the element record and
 * the log of effects.
 */
module Player {
  import opened Wrappers
  import opened Element
  import opened Model
  import opened Scheduler
  import opened Tracking
  import opened Sequencing
  import opened Playback
  import opened Advance

  class VastAdPlayer {
    var requestSettings: RequestSettings
    var unsentTrackingPoints: seq<TrackingPoint>
    var activeAd: Option<nat>
    var adVideo: Option<AdMedia>
    var adPlaying: bool
    var adsEnabled: bool
    var breaks: seq<Break>
    var lastPlayedMidroll: Option<nat>
    // whether skipHandler.start / skipHandler.end are functions
    var hasStartHandler: bool
    var hasEndHandler: bool
    var playerState: PlayerState
    // whether takeoverCallbacks.onTakeover / onRelease are functions
    var hasTakeoverCallback: bool
    var hasReleaseCallback: bool
    const clickEvent: EventType
    var companionHandler: Option<Companion -> bool>
    var player: Option<Video>
    var hasShownPreroll: bool
    var hasShownPostroll: bool
    // a 200 ms buffering re-poll has been scheduled and not yet run
    var repollPending: bool
    // the ad supply the ad handles index into
    const ads: seq<Ad>
    var effects: seq<Effect>

    ghost predicate Valid()
      reads this`activeAd, this`breaks, this`adPlaying, this`adVideo, this`playerState
    {
      SupplyValid() && BreaksValid() && AdValid() && SnapshotValid()
    }

    /** The ad chains are finite and the click event is one of the two the player uses. */
    ghost predicate SupplyValid()
    {
      ChainWellFormed(ads) && (clickEvent == Click || clickEvent == TouchStart)
    }

    /** The break list is in position order and names ads of the supply. */
    ghost predicate BreaksValid()
      reads this`breaks
    {
      Sorted(breaks) && (forall b :: b in breaks ==> b.ad < |ads|)
    }

    /** The active ad is in the supply; an ad only plays once it is loaded. */
    ghost predicate AdValid()
      reads this`activeAd, this`adPlaying, this`adVideo
    {
      InSupply(ads, activeAd) && (adPlaying ==> Loaded())
    }

    /** Content that had ended has a saved source to go back to. */
    ghost predicate SnapshotValid()
      reads this`playerState
    {
      playerState.ended ==> playerState.originalSrc.Some?
    }

    /** An ad with a linear creative is active and a media file of it is selected. */
    predicate Loaded()
      reads this`activeAd, this`adVideo
    {
      activeAd.Some? && activeAd.value < |ads| && ads[activeAd.value].linear.Some? && adVideo.Some?
    }

    constructor (isIPad: bool, supply: seq<Ad>)
      requires ChainWellFormed(supply)
      ensures Valid()
      ensures ads == supply && clickEvent == ClickEventFor(isIPad)
      ensures requestSettings == RequestSettings(None, None, None, None, None)
      ensures unsentTrackingPoints == [] && activeAd == None && adVideo == None && !adPlaying && adsEnabled
      ensures breaks == [] && lastPlayedMidroll == None
      ensures !hasStartHandler && !hasEndHandler && !hasTakeoverCallback && !hasReleaseCallback
      ensures playerState == PlayerState(None, 0, false, false)
      ensures companionHandler == None && player == None
      ensures !hasShownPreroll && !hasShownPostroll && !repollPending && effects == []
    {
      requestSettings := RequestSettings(None, None, None, None, None);
      unsentTrackingPoints := [];
      activeAd := None;
      adVideo := None;
      adPlaying := false;
      adsEnabled := true;
      breaks := [];
      lastPlayedMidroll := None;
      hasStartHandler, hasEndHandler := false, false;
      playerState := PlayerState(None, 0, false, false);
      hasTakeoverCallback, hasReleaseCallback := false, false;
      clickEvent := ClickEventFor(isIPad);
      companionHandler := None;
      player := None;
      hasShownPreroll, hasShownPostroll := false, false;
      repollPending := false;
      ads := supply;
      effects := [];
    }

    // ---- Setters ----

    method SetSkipHandler(onAdStarted: bool, onAdEnded: bool)
      modifies this`hasStartHandler, this`hasEndHandler
      ensures hasStartHandler == onAdStarted && hasEndHandler == onAdEnded
    {
      hasStartHandler := onAdStarted;
      hasEndHandler := onAdEnded;
    }

    method SetTakeoverCallbacks(onTakeover: bool, onRelease: bool)
      modifies this`hasTakeoverCallback, this`hasReleaseCallback
      ensures hasTakeoverCallback == onTakeover && hasReleaseCallback == onRelease
    {
      hasTakeoverCallback := onTakeover;
      hasReleaseCallback := onRelease;
    }

    method SetAdsEnabled(enabled: bool)
      modifies this`adsEnabled
      ensures adsEnabled == enabled
    {
      adsEnabled := enabled;
    }

    /** A value that is not a function clears the handler: it is stored, but never called. */
    method SetCompanionHandler(handler: Option<Companion -> bool>)
      modifies this`companionHandler
      ensures companionHandler == handler
    {
      companionHandler := handler;
    }

    method SetVideoProperties(width: int, height: int, bitrate: Option<int>)
      modifies this`requestSettings
      ensures requestSettings == old(requestSettings).(width := Some(width), height := Some(height), bitrate := bitrate)
    {
      requestSettings := requestSettings.(width := Some(width), height := Some(height), bitrate := bitrate);
    }

    // ---- Insertion scheduler: the break list ----

    /**
     * A fetched break is resolved and inserted in position order; a
     * percentage with no known duration is dropped.
     */
    method OnAdBreakFetched(position: Offset, ad: nat)
      requires Valid() && ad < |ads|
      modifies this`breaks
      ensures Valid()
      ensures var p := ResolvePosition(position, if player.Some? then player.value.duration else 0);
              && (p.None? ==> breaks == old(breaks))
              && (p.Some? ==> breaks == Insert(old(breaks), Break(p.value, ad))
                              && multiset(breaks) == multiset(old(breaks)) + multiset{Break(p.value, ad)})
    {
      var p: Millis;
      match position {
        case Timecode(ms) =>
          p := ms;
        case Percentage(pct) =>
          if player.Some? && player.value.duration > 0 {
            p := pct * player.value.duration / 100;
          } else {
            // logged: fractional position given, but the video has no duration
            return;
          }
      }
      var b := Break(p, ad);
      InsertSorted(breaks, b);
      InsertPermutation(breaks, b);
      breaks := Insert(breaks, b);
      assert forall x :: x in breaks ==> x in multiset(breaks);
    }

    // ---- Takeover and release of the element ----

    method Takeover()
      requires player.Some?
      modifies this`player, this`effects
      ensures player == Some(TakenOver(old(player).value, clickEvent))
      ensures effects == old(effects) + (if hasTakeoverCallback then [TookOver] else [])
    {
      var v := player.value;
      player := Some(v.(controls := false, listeners := TakeoverListeners(v.listeners, clickEvent)));
      if hasTakeoverCallback {
        effects := effects + [TookOver];
      }
    }

    method Release()
      requires player.Some?
      modifies this`player, this`effects
      ensures player == Some(ReleasedVideo(old(player).value, clickEvent))
      ensures effects == old(effects) + (if hasReleaseCallback then [Released] else [])
    {
      var v := player.value;
      player := Some(v.(controls := true, listeners := ReleaseListeners(v.listeners, clickEvent)));
      if hasReleaseCallback {
        effects := effects + [Released];
      }
    }

    // ---- The advance loop ----

    /** The settings the advance loop consults. */
    function CurrentSettings(): Settings
      reads this`adsEnabled, this`companionHandler, this`hasStartHandler, this`hasEndHandler, this`hasReleaseCallback, this`playerState
    {
      Settings(adsEnabled, companionHandler, hasStartHandler, hasEndHandler, hasReleaseCallback, clickEvent, playerState)
    }

    /** The part of the player the advance loop changes. */
    function AdView(): AdState
      reads this`activeAd, this`adVideo, this`adPlaying, this`unsentTrackingPoints, this`player, this`effects
      requires player.Some?
    {
      AdState(activeAd, adVideo, adPlaying, unsentTrackingPoints, player.value, effects)
    }

    method ShowNextAd(first: FirstArg) returns (shown: bool)
      requires Valid() && player.Some? && (first.AnAd? ==> first.ad < |ads|)
      modifies this`activeAd, this`adVideo, this`adPlaying, this`unsentTrackingPoints, this`player, this`effects
      ensures Valid() && player.Some?
      ensures shown == (adsEnabled && activeAd.Some?)
      ensures AdView() == AdvanceFrom(ads, CurrentSettings(), first, old(AdView()))
    {
      if adVideo.Some? && adPlaying {
        effects := effects + [Track(LinearOf(activeAd.value), "complete", Some(player.value.currentTime), Some(adVideo.value.src))];
        adPlaying := false;
      }
      ghost var h := CurrentSettings();
      ghost var s0 := old(AdView());
      assert effects == s0.effects + CompleteEffects(s0.activeAd, s0.adVideo, s0.adPlaying, s0.player.currentTime);
      activeAd := StartOf(ads, first, activeAd);
      shown := ShowFrom();
      assert CurrentSettings() == h;
    }

    /**
     * The rest of `_showNextAd`, from the ad it has just made active. Where the
     * source calls `_showNextAd()` again no ad is playing, so its 'complete'
     * step does nothing and the call amounts to moving on to the next ad.
     */
    method ShowFrom() returns (shown: bool)
      requires SupplyValid() && SnapshotValid() && InSupply(ads, activeAd) && !adPlaying && player.Some?
      modifies this`activeAd, this`adVideo, this`adPlaying, this`unsentTrackingPoints, this`player, this`effects
      ensures player.Some? && !adPlaying
      ensures shown == (adsEnabled && activeAd.Some?)
      ensures AdView() == Walk(ads, CurrentSettings(), old(activeAd), old(adVideo), old(unsentTrackingPoints),
                               old(player).value, old(effects))
      decreases Rank(ads, activeAd), 1
    {
      ghost var h := CurrentSettings();
      if !adsEnabled || activeAd.None? {
        EndAds();
        return false;
      }
      var ad := ads[activeAd.value];
      if !ad.hasData {
        activeAd := ad.next;
        shown := ShowFrom();
        assert CurrentSettings() == h;
        return;
      }
      shown := ShowAdWithData();
    }

    /** `_showNextAd` on an ad with data: pick its media, show its companions, then play it or move on. */
    method ShowAdWithData() returns (shown: bool)
      requires SupplyValid() && SnapshotValid() && InSupply(ads, activeAd) && !adPlaying && player.Some?
      requires adsEnabled && activeAd.Some? && ads[activeAd.value].hasData
      modifies this`activeAd, this`adVideo, this`adPlaying, this`unsentTrackingPoints, this`player, this`effects
      ensures player.Some? && !adPlaying
      ensures shown == (adsEnabled && activeAd.Some?)
      ensures AdView() == Walk(ads, CurrentSettings(), old(activeAd), old(adVideo), old(unsentTrackingPoints),
                               old(player).value, old(effects))
      decreases Rank(ads, activeAd), 0
    {
      var current := activeAd.value;
      var ad := ads[current];
      adVideo := None;
      if ad.linear.Some? {
        adVideo := ad.linear.value.bestMedia;
      }

      ShowCompanions(current);

      if adVideo.None? {
        activeAd := ad.next;
        shown := ShowFrom();
        return;
      }

      PlayVideoAd();
      return true;
    }

    /** No more ads: the ads-ended handler, then the content resumes. */
    method EndAds()
      requires SnapshotValid() && player.Some?
      modifies this`player, this`adPlaying, this`effects
      ensures !adPlaying
      ensures player == Some(ResumedVideo(old(player).value, playerState, clickEvent))
      ensures effects == old(effects) + EndingEffects(CurrentSettings(), old(player).value)
    {
      if hasEndHandler {
        effects := effects + [AdsEnded];
      }
      ghost var mid := effects;
      ResumeOriginalVideo();
      LogAssoc(old(effects), if hasEndHandler then [AdsEnded] else [], ResumeEffects(old(player).value, playerState, hasReleaseCallback));
    }

    /** Skipping the current ad advances the loop as its 'ended' event would. */
    method SkipCurrentAd()
      requires Valid() && player.Some?
      modifies this`activeAd, this`adVideo, this`adPlaying, this`unsentTrackingPoints, this`player, this`effects
      ensures Valid() && player.Some?
      ensures AdView() == AdvanceFrom(ads, CurrentSettings(), NotAnAd, old(AdView()))
    {
      var _ := ShowNextAd(NotAnAd);
    }

    // ---- Companion dispatcher ----

    /** The companion loop of `_showNextAd`: every companion of the ad, in order, goes to the handler. */
    method ShowCompanions(ad: nat)
      requires ad < |ads|
      modifies this`effects
      ensures effects == old(effects) + CompanionDispatch(ad, ads[ad].companions, companionHandler, |ads[ad].companions|)
    {
      var companions := ads[ad].companions;
      var i := 0;
      while i < |companions|
        invariant 0 <= i <= |companions|
        invariant effects == old(effects) + CompanionDispatch(ad, companions, companionHandler, i)
      {
        var _ := ShowCompanionBanner(ad, i);
        i := i + 1;
      }
    }

    method ShowCompanionBanner(ad: nat, k: nat) returns (shown: bool)
      requires ad < |ads| && k < |ads[ad].companions|
      modifies this`effects
      ensures shown == ShownBy(companionHandler, ads[ad].companions[k])
      ensures effects == old(effects) + CompanionEffects(ad, k, ads[ad].companions[k], companionHandler)
    {
      if companionHandler.None? {
        return false;
      }
      effects := effects + [RenderCompanion(ad, k)];
      if companionHandler.value(ads[ad].companions[k]) {
        effects := effects + [Track(CompanionOf(ad, k), "creativeView", None, None)];
        return true;
      }
      return false;
    }

    /** On an error from the ad library: resume the content. */
    method OnVastError()
      requires Valid() && player.Some?
      modifies this`player, this`adPlaying, this`effects
      ensures Valid() && !adPlaying
      ensures player == Some(ResumedVideo(old(player).value, playerState, clickEvent))
      ensures effects == old(effects) + ResumeEffects(old(player).value, playerState, hasReleaseCallback)
    {
      ResumeOriginalVideo();
    }

    // ---- Beginning a break ----

    /** The effects of a break that finds no ad to play, from the taken-over element on. */
    ghost function EmptyBreakEffects(taken: Video): seq<Effect>
      reads this`hasTakeoverCallback, this`adsEnabled, this`companionHandler, this`hasStartHandler, this`hasEndHandler,
            this`hasReleaseCallback, this`playerState
    {
      [PauseCall] + (if hasTakeoverCallback then [TookOver] else []) + EndingEffects(CurrentSettings(), taken)
    }

    method RunAds(point: InsertionPoint, ad: FirstArg)
      requires Valid() && player.Some? && !adPlaying && (ad.AnAd? ==> ad.ad < |ads|)
      modifies this`player, this`playerState, this`effects, this`adPlaying, this`requestSettings,
               this`activeAd, this`adVideo, this`unsentTrackingPoints
      ensures Valid() && player.Some? && !adPlaying
      ensures requestSettings == old(requestSettings).(insertionPointType := Some(point))
      ensures playerState == Snapshot(old(playerState), Paused(old(player).value))
      ensures var taken := TakenOver(Paused(old(player).value), clickEvent);
              AdView() == AdvanceFrom(ads, CurrentSettings(), RunAdsArg(point, ad),
                                      AdState(None, old(adVideo), false, old(unsentTrackingPoints), taken,
                                              old(effects) + [PauseCall] + (if hasTakeoverCallback then [TookOver] else [])))
      ensures RunAdsArg(point, ad) == NotAnAd ==>
                var taken := TakenOver(Paused(old(player).value), clickEvent);
                && activeAd == None
                && player == Some(ResumedVideo(taken, playerState, clickEvent))
                && effects == old(effects) + EmptyBreakEffects(taken)
    {
      BeginBreak(point);
      var first := RunAdsArg(point, ad);
      ghost var taken := TakenOver(Paused(old(player).value), clickEvent);
      ghost var pre := [PauseCall] + (if hasTakeoverCallback then [TookOver] else []);
      ghost var s := AdView();
      var _ := ShowNextAd(first);
      if first == NotAnAd {
        AdvanceFromNothing(ads, CurrentSettings(), s);
        LogAssoc(old(effects), [PauseCall], if hasTakeoverCallback then [TookOver] else []);
        LogAssoc(old(effects), pre, EndingEffects(CurrentSettings(), taken));
      }
    }

    /** The start of `_runAds`: pause, snapshot and take over the element, note the insertion point, drop the active ad. */
    method BeginBreak(point: InsertionPoint)
      requires Valid() && player.Some? && !adPlaying
      modifies this`player, this`playerState, this`effects, this`adPlaying, this`requestSettings, this`activeAd
      ensures Valid() && !adPlaying && activeAd == None
      ensures player == Some(TakenOver(Paused(old(player).value), clickEvent))
      ensures requestSettings == old(requestSettings).(insertionPointType := Some(point))
      ensures playerState == Snapshot(old(playerState), Paused(old(player).value))
      ensures effects == old(effects) + [PauseCall] + (if hasTakeoverCallback then [TookOver] else [])
    {
      player := Some(Paused(player.value));
      effects := effects + [PauseCall];
      var _ := PrepareAdPlayback();
      requestSettings := requestSettings.(insertionPointType := Some(point));
      activeAd := None;
    }

    /** Saves the element's state and takes it over, unless an ad is already playing. */
    method PrepareAdPlayback() returns (prepared: bool)
      requires Valid()
      modifies this`playerState, this`player, this`effects, this`adPlaying
      ensures Valid()
      ensures prepared == (!old(adPlaying) && old(player).Some?)
      ensures !prepared ==> playerState == old(playerState) && player == old(player)
                            && effects == old(effects) && adPlaying == old(adPlaying)
      ensures prepared ==> && playerState == Snapshot(old(playerState), old(player).value)
                           && player == Some(TakenOver(old(player).value, clickEvent))
                           && effects == old(effects) + (if hasTakeoverCallback then [TookOver] else [])
                           && !adPlaying
    {
      if adPlaying {
        return false;
      }
      if player.Some? {
        var v := player.value;
        playerState := playerState.(originalSrc := Some(v.currentSrc), timeToResume := v.currentTime, ended := v.ended);
        Takeover();
        adPlaying := false;
        return true;
      }
      return false;
    }

    // ---- Ad-mode event handlers ----

    method OnAdPlay()
      requires Valid() && player.Some? && Loaded()
      modifies this`effects, this`adPlaying
      ensures Valid() && adPlaying
      ensures effects == old(effects) + [Track(LinearOf(activeAd.value), PlayTrackEvent(old(adPlaying)),
                                               Some(if old(adPlaying) then player.value.currentTime else 0),
                                               Some(adVideo.value.src))]
    {
      if !adPlaying {
        effects := effects + [Track(LinearOf(activeAd.value), "start", Some(0), Some(adVideo.value.src))];
      } else {
        effects := effects + [Track(LinearOf(activeAd.value), "resume", Some(player.value.currentTime), Some(adVideo.value.src))];
      }
      adPlaying := true;
    }

    /**
     * A click on the ad tracks 'click', opens the click-through URL if there
     * is one, pauses with controls shown, and swaps the click listener for the
     * click-to-resume one.
     */
    method OnAdClick()
      requires Valid() && player.Some? && Loaded()
      modifies this`effects, this`player
      ensures Valid()
      ensures var url := ads[activeAd.value].linear.value.clickThrough;
              effects == old(effects) + [Track(LinearOf(activeAd.value), "click", None, None)]
                         + (if url.Some? && url.value != "" then [OpenWindow(url.value)] else [])
                         + [PauseCall, PreventDefault]
      ensures var v := old(player).value;
              player == Some(v.(controls := true, paused := true,
                                listeners := v.listeners - {Listener(clickEvent, Handler.OnAdClick)}
                                             + {Listener(clickEvent, Handler.OnAdClickToResume)}))
    {
      effects := effects + [Track(LinearOf(activeAd.value), "click", None, None)];
      var url := ads[activeAd.value].linear.value.clickThrough;
      if url.Some? && url.value != "" {
        effects := effects + [OpenWindow(url.value)];
      }
      var v := player.value.(controls := true);
      player := Some(Paused(v));
      effects := effects + [PauseCall];
      v := player.value;
      player := Some(v.(listeners := v.listeners - {Listener(clickEvent, Handler.OnAdClick)}));
      v := player.value;
      player := Some(v.(listeners := v.listeners + {Listener(clickEvent, Handler.OnAdClickToResume)}));
      effects := effects + [PreventDefault];
    }

    method OnAdClickToResume()
      requires player.Some?
      modifies this`effects, this`player
      ensures player == Some(Played(old(player).value)) && effects == old(effects) + [PlayCall]
    {
      player := Some(Played(player.value));
      effects := effects + [PlayCall];
    }

    /** The ad media can play: track 'creativeView', play it from the start. */
    method OnAdCanPlay()
      requires Valid() && player.Some? && Loaded()
      modifies this`effects, this`player
      ensures Valid()
      ensures effects == old(effects) + [Track(LinearOf(activeAd.value), "creativeView", None, None), PlayCall]
      ensures player == Some(Played(old(player).value).(currentTime := 0))
    {
      effects := effects + [Track(LinearOf(activeAd.value), "creativeView", None, None)];
      player := Some(Played(player.value));
      effects := effects + [PlayCall];
      player := Some(player.value.(currentTime := 0));
    }

    /**
     * A progress tick of a playing ad fires the due tracking points, each with
     * the current time and media, and keeps only the points not yet due.
     */
    method OnAdTick() returns (ticked: bool)
      requires Valid()
      modifies this`effects, this`unsentTrackingPoints
      ensures Valid()
      ensures ticked == (player.Some? && adVideo.Some? && adPlaying)
      ensures !ticked ==> effects == old(effects) && unsentTrackingPoints == old(unsentTrackingPoints)
      ensures ticked ==>
                var t := player.value.currentTime;
                var m := adVideo.value;
                && unsentTrackingPoints == Pending(old(unsentTrackingPoints), t, m.duration)
                && effects == old(effects) + TrackEffects(activeAd.value, Fired(old(unsentTrackingPoints), t, m.duration), t, m.src)
    {
      if !(player.Some? && adVideo.Some? && adPlaying) {
        return false;
      }
      var time := player.value.currentTime;
      var media := adVideo.value;
      var ad := activeAd.value;
      var ps := unsentTrackingPoints;
      var kept: seq<TrackingPoint> := [];
      var fired: seq<TrackingPoint> := [];
      // the track calls of this tick, in order
      var out: seq<Effect> := [];
      var i := 0;
      while i < |ps|
        invariant 0 <= i <= |ps|
        invariant kept == Pending(ps[..i], time, media.duration)
        invariant fired == Fired(ps[..i], time, media.duration)
        invariant out == TrackEffects(ad, fired, time, media.src)
        modifies {}
      {
        var p := ps[i];
        TickStep(ps, i, time, media.duration);
        if Reached(p.offset, time, media.duration) {
          TrackEffectsSnoc(ad, fired, p, time, media.src);
          out := out + [Track(LinearOf(ad), p.event, Some(time), Some(media.src))];
          fired := fired + [p];
        } else {
          kept := kept + [p];
        }
        i := i + 1;
      }
      assert ps[..i] == ps;
      effects := effects + out;
      unsentTrackingPoints := kept;
      return true;
    }

    /** A media error of the ad is never fatal: the loop always advances. */
    method OnAdError()
      requires Valid() && player.Some?
      modifies this`activeAd, this`adVideo, this`adPlaying, this`unsentTrackingPoints, this`player, this`effects
      ensures Valid() && player.Some?
      ensures AdView() == AdvanceFrom(ads, CurrentSettings(), NotAnAd, old(AdView()))
    {
      var _ := ShowNextAd(NotAnAd);
    }

    /** Loads the active ad's tracking points and media, and announces its duration. */
    method PlayVideoAd()
      requires player.Some? && Loaded()
      modifies this`unsentTrackingPoints, this`player, this`effects
      ensures unsentTrackingPoints == ads[activeAd.value].linear.value.trackingPoints
      ensures effects == old(effects) + PlayAdEffects(hasStartHandler, adVideo.value)
      ensures player == Some(old(player).value.(src := adVideo.value.src))
    {
      unsentTrackingPoints := ads[activeAd.value].linear.value.trackingPoints;
      if hasStartHandler {
        effects := effects + [AdStarted(adVideo.value.duration)];
      }
      player := Some(player.value.(src := adVideo.value.src));
      effects := effects + [LoadCall];
    }

    // ---- Content mode: restoring and resuming the content ----

    /** How the ready-to-play handler leaves the element, the snapshot, the log and the re-poll flag. */
    ghost predicate CanPlayHandled(v: Video, st: PlayerState, log0: seq<Effect>, pending0: bool)
      reads this`player, this`effects, this`playerState, this`repollPending
    {
      && (st.timeToResume == 0 ==>
            && player == Some(Played(v)) && effects == log0 + [PlayCall]
            && playerState == st && repollPending == pending0)
      && (st.timeToResume != 0 && Covers(v.seekableEnd, st.timeToResume) ==>
            && player == Some(Played(v).(currentTime := st.timeToResume))
            && playerState == st.(isBuffering := false, timeToResume := 0)
            && effects == log0 + (if st.isBuffering then [] else [PlayCall]) + [PlayCall]
            && repollPending == pending0)
      && (st.timeToResume != 0 && !Covers(v.seekableEnd, st.timeToResume) ==>
            && player == Some(Paused(v))
            && playerState == st.(isBuffering := true)
            && effects == log0 + (if st.isBuffering then [] else [PlayCall]) + [PauseCall]
            && repollPending)
    }

    /**
     * The content can play again: with a point to resume at, seek there only
     * once the seekable range covers it; until then pause, mark buffering and
     * schedule a re-poll.
     */
    method OnVideoCanPlay()
      requires SnapshotValid() && player.Some?
      modifies this`player, this`playerState, this`effects, this`repollPending
      ensures SnapshotValid() && player.Some?
      ensures CanPlayHandled(old(player).value, old(playerState), old(effects), old(repollPending))
    {
      if playerState.timeToResume == 0 {
        player := Some(Played(player.value));
        effects := effects + [PlayCall];
        return;
      }
      if !playerState.isBuffering {
        player := Some(Played(player.value));
        effects := effects + [PlayCall];
      }
      if !Covers(player.value.seekableEnd, playerState.timeToResume) {
        player := Some(Paused(player.value));
        effects := effects + [PauseCall];
        playerState := playerState.(isBuffering := true);
        repollPending := true;
        return;
      }
      player := Some(player.value.(currentTime := playerState.timeToResume));
      player := Some(Played(player.value));
      effects := effects + [PlayCall];
      playerState := playerState.(isBuffering := false, timeToResume := 0);
    }

    /** The scheduled re-poll runs the ready-to-play handler again. */
    method BufferPollElapsed()
      requires SnapshotValid() && player.Some? && repollPending
      modifies this`player, this`playerState, this`effects, this`repollPending
      ensures SnapshotValid() && player.Some?
      ensures CanPlayHandled(old(player).value, old(playerState), old(effects), false)
    {
      repollPending := false;
      OnVideoCanPlay();
    }

    /**
     * Gives the element back to the content: restores its source (or plays it
     * in place), rebinds the content-mode listeners and, for content that had
     * ended, re-synthesises 'ended'.
     */
    method ResumeOriginalVideo()
      requires SnapshotValid() && player.Some?
      modifies this`player, this`adPlaying, this`effects
      ensures !adPlaying
      ensures player == Some(ResumedVideo(old(player).value, playerState, clickEvent))
      ensures effects == old(effects) + ResumeEffects(old(player).value, playerState, hasReleaseCallback)
    {
      if !playerState.ended {
        var v := player.value;
        if ResumesInPlace(v, playerState) {
          player := Some(Played(v));
          effects := effects + [PlayCall];
        } else {
          player := Some(v.(src := playerState.originalSrc.value));
          effects := effects + [LoadCall];
        }
      }
      adPlaying := false;
      Release();
      if playerState.ended {
        player := Some(player.value.(autoplay := false));
        if player.value.src != playerState.originalSrc.value {
          player := Some(player.value.(src := playerState.originalSrc.value));
        }
        TriggerVideoEvent(Ended);
      }
    }

    method TriggerVideoEvent(e: EventType)
      modifies this`effects
      ensures effects == old(effects) + (if player.Some? then [Dispatch(e)] else [])
    {
      if player.None? {
        return;
      }
      effects := effects + [Dispatch(e)];
    }

    // ---- Content-mode event handlers ----

    /** The first 'play' of the content runs a pre-roll break, once per watched element. */
    method CheckForPreroll()
      requires Valid() && player.Some? && (!hasShownPreroll ==> !adPlaying)
      modifies this`player, this`playerState, this`effects, this`adPlaying, this`requestSettings,
               this`activeAd, this`adVideo, this`unsentTrackingPoints, this`hasShownPreroll
      ensures Valid() && player.Some? && hasShownPreroll
      ensures old(hasShownPreroll) ==> unchanged(this)
      ensures !old(hasShownPreroll) ==>
                var taken := TakenOver(Paused(old(player).value), clickEvent);
                && requestSettings.insertionPointType == Some(Start)
                && playerState == Snapshot(old(playerState), Paused(old(player).value))
                && activeAd == None && !adPlaying
                && player == Some(ResumedVideo(taken, playerState, clickEvent))
                && effects == old(effects) + EmptyBreakEffects(taken)
    {
      if !hasShownPreroll {
        RunAds(Start, NotAnAd);
        hasShownPreroll := true;
      }
    }

    /**
     * On 'timeupdate', runs the latest break already passed, unless an ad is
     * playing or that break index was the last one run.
     */
    method CheckForMidroll() returns (fired: bool)
      requires Valid() && player.Some?
      modifies this`player, this`playerState, this`effects, this`adPlaying, this`requestSettings,
               this`activeAd, this`adVideo, this`unsentTrackingPoints, this`lastPlayedMidroll
      ensures Valid() && player.Some?
      ensures var due := DueBreak(old(breaks), old(player).value.currentTime);
              fired == (!old(adPlaying) && due.Some? && due != old(lastPlayedMidroll))
      ensures !fired ==> unchanged(this)
      ensures fired ==>
                var due := DueBreak(old(breaks), old(player).value.currentTime).value;
                var taken := TakenOver(Paused(old(player).value), clickEvent);
                && lastPlayedMidroll == Some(due)
                && requestSettings.insertionPointType == Some(Position)
                && playerState == Snapshot(old(playerState), Paused(old(player).value))
                && AdView() == AdvanceFrom(ads, CurrentSettings(), AnAd(old(breaks)[due].ad),
                                           AdState(None, old(adVideo), false, old(unsentTrackingPoints), taken,
                                                   old(effects) + [PauseCall] + (if hasTakeoverCallback then [TookOver] else [])))
    {
      if adPlaying {
        return false;
      }
      if |breaks| == 0 {
        return false;
      }
      var potential := ScanBreaks(breaks, player.value.currentTime);
      if potential.Some? && potential != lastPlayedMidroll {
        lastPlayedMidroll := potential;
        RunAds(Position, MidrollArg(breaks[potential.value]));
        return true;
      }
      return false;
    }

    /** The content's 'ended' runs a post-roll break, once per watched element. */
    method CheckForPostroll()
      requires Valid() && player.Some? && (!hasShownPostroll ==> !adPlaying)
      modifies this`player, this`playerState, this`effects, this`adPlaying, this`requestSettings,
               this`activeAd, this`adVideo, this`unsentTrackingPoints, this`hasShownPostroll
      ensures Valid() && player.Some? && hasShownPostroll
      ensures old(hasShownPostroll) ==> unchanged(this)
      ensures !old(hasShownPostroll) ==>
                var taken := TakenOver(Paused(old(player).value), clickEvent);
                && requestSettings.insertionPointType == Some(End)
                && playerState == Snapshot(old(playerState), Paused(old(player).value))
                && activeAd == None && !adPlaying
                && player == Some(ResumedVideo(taken, playerState, clickEvent))
                && effects == old(effects) + EmptyBreakEffects(taken)
    {
      if !hasShownPostroll {
        hasShownPostroll := true;
        RunAds(End, NotAnAd);
      }
    }

    /**
     * Starts watching a video element: resets the pre- and post-roll flags,
     * runs a before-content break at once if the element is already playing,
     * and registers the content-mode listeners. Refuses a non-video element.
     */
    method WatchPlayer(v: Video) returns (ok: bool)
      requires Valid() && (!v.paused ==> !adPlaying)
      modifies this`player, this`playerState, this`effects, this`adPlaying, this`requestSettings,
               this`activeAd, this`adVideo, this`unsentTrackingPoints, this`hasShownPreroll, this`hasShownPostroll
      ensures Valid()
      ensures ok == v.isVideo
      ensures !ok ==> unchanged(this)
      ensures ok ==> player.Some? && hasShownPreroll == !v.paused && !hasShownPostroll
      ensures ok && v.paused ==> adPlaying == old(adPlaying)
      ensures ok && !v.paused ==> !adPlaying
      ensures ok ==> WatchListeners() <= player.value.listeners
      ensures ok && v.paused ==>
                && player == Some(v.(listeners := v.listeners + WatchListeners()))
                && effects == old(effects) && playerState == old(playerState)
                && requestSettings == old(requestSettings) && activeAd == old(activeAd)
      ensures ok && !v.paused ==>
                var taken := TakenOver(Paused(v), clickEvent);
                var resumed := ResumedVideo(taken, playerState, clickEvent);
                && requestSettings.insertionPointType == Some(BeforeContent)
                && playerState == Snapshot(old(playerState), Paused(v))
                && activeAd == None
                && player == Some(resumed.(listeners := resumed.listeners + WatchListeners()))
                && effects == old(effects) + EmptyBreakEffects(taken)
    {
      if !v.isVideo {
        // logged: not watching player - not a video element
        return false;
      }
      player := Some(v);
      hasShownPreroll := false;
      hasShownPostroll := false;
      if !v.paused {
        RunAds(BeforeContent, NotAnAd);
        hasShownPreroll := true;
      }
      var w := player.value;
      player := Some(w.(listeners := w.listeners + WatchListeners()));
      return true;
    }
  }
}

/**
 * The advance loop's pure part: which ad `_showNextAd` starts from, which ad
 * it ends up playing, and which companion effects it has on the way.
 */
module Sequencing {
  import opened Wrappers
  import opened Model

  predicate InSupply(ads: seq<Ad>, c: Option<nat>)
  {
    c.Some? ==> c.value < |ads|
  }

  /** The termination measure of the advance loop: how far the candidate is from the end of the supply. */
  function Rank(ads: seq<Ad>, c: Option<nat>): nat
  {
    if c.Some? && c.value < |ads| then |ads| - c.value else 0
  }

  /**
   * The candidate of lines 288-292: the explicit first ad, else the active ad's
   * successor. With neither, the chain counts as exhausted (see Findings).
   */
  function StartOf(ads: seq<Ad>, first: FirstArg, active: Option<nat>): (c: Option<nat>)
    requires ChainWellFormed(ads) && InSupply(ads, active)
    ensures first.AnAd? ==> c == Some(first.ad)
    ensures first.NotAnAd? && c.Some? ==> active.Some? && active.value < c.value < |ads|
    ensures first.NotAnAd? && active.None? ==> c.None?
  {
    match first
    case AnAd(a) => Some(a)
    case NotAnAd => if active.Some? then ads[active.value].next else None
  }

  predicate HasMedia(a: Ad)
  {
    a.linear.Some? && a.linear.value.bestMedia.Some?
  }

  /** An ad the loop stops at and plays: it has data and a selectable linear media file. */
  predicate Playable(a: Ad)
  {
    a.hasData && HasMedia(a)
  }

  /** `j` lies on the chain that starts at candidate `c`. */
  ghost predicate Reaches(ads: seq<Ad>, c: Option<nat>, j: nat)
    requires ChainWellFormed(ads) && InSupply(ads, c)
    decreases Rank(ads, c)
  {
    c.Some? && (c.value == j || Reaches(ads, ads[c.value].next, j))
  }

  /** The ad the advance loop plays: the first playable ad on the chain from `c`. */
  function FirstPlayable(ads: seq<Ad>, c: Option<nat>): (r: Option<nat>)
    requires ChainWellFormed(ads) && InSupply(ads, c)
    ensures r.Some? ==> r.value < |ads| && Playable(ads[r.value])
    ensures r.Some? ==> c.Some? && c.value <= r.value
    decreases Rank(ads, c)
  {
    if c.None? then None
    else if Playable(ads[c.value]) then c
    else FirstPlayable(ads, ads[c.value].next)
  }

  /**
   * The loop plays an ad on the chain, and every ad it passes over on the way
   * (every earlier one, as indices grow along a chain) is not playable; when
   * it plays nothing, no ad on the chain is playable.
   */
  lemma {:induction false} FirstPlayableIsFirst(ads: seq<Ad>, c: Option<nat>)
    requires ChainWellFormed(ads) && InSupply(ads, c)
    ensures var r := FirstPlayable(ads, c);
            && (r.Some? ==> Reaches(ads, c, r.value))
            && (forall j: nat :: Reaches(ads, c, j) && (r.None? || j < r.value) ==> j < |ads| && !Playable(ads[j]))
    decreases Rank(ads, c)
  {
    if c.Some? {
      var n := ads[c.value].next;
      FirstPlayableIsFirst(ads, n);
      forall j: nat | Reaches(ads, n, j) ensures c.value < j < |ads| {
        ReachesForward(ads, n, j);
      }
    }
  }

  lemma {:induction false} ReachesForward(ads: seq<Ad>, c: Option<nat>, j: nat)
    requires ChainWellFormed(ads) && InSupply(ads, c)
    requires Reaches(ads, c, j)
    ensures c.Some? && c.value <= j < |ads|
    decreases Rank(ads, c)
  {
    if c.value != j {
      ReachesForward(ads, ads[c.value].next, j);
    }
  }

  /**
   * `_showCompanionBanner` for companion `k` of ad `ad`: the handler is called
   * when there is one; a true answer is followed by one `creativeView` track.
   */
  function CompanionEffects(ad: nat, k: nat, c: Companion, handler: Option<Companion -> bool>): seq<Effect>
  {
    if handler.None? then []
    else [RenderCompanion(ad, k)] + (if handler.value(c) then [Track(CompanionOf(ad, k), "creativeView", None, None)] else [])
  }

  /** The companion loop of lines 321-327 over the first `n` companions. */
  function CompanionDispatch(ad: nat, cs: seq<Companion>, handler: Option<Companion -> bool>, n: nat): seq<Effect>
    requires n <= |cs|
  {
    if n == 0 then [] else CompanionDispatch(ad, cs, handler, n - 1) + CompanionEffects(ad, n - 1, cs[n - 1], handler)
  }

  /** The handler exists and reports that it displayed companion `c`. */
  predicate ShownBy(handler: Option<Companion -> bool>, c: Companion)
  {
    handler.Some? && handler.value(c)
  }

  function CreativeView(ad: nat, k: nat): Effect
  {
    Track(CompanionOf(ad, k), "creativeView", None, None)
  }

  /**
   * The dispatch tracks `creativeView` for a companion exactly once when the
   * handler exists and answers true for it, and never otherwise.
   */
  lemma {:induction false} DispatchTracksShownCompanions(ad: nat, cs: seq<Companion>, handler: Option<Companion -> bool>, n: nat, k: nat)
    requires n <= |cs| && k < |cs|
    ensures Occurrences(CompanionDispatch(ad, cs, handler, n), CreativeView(ad, k))
            == if k < n && ShownBy(handler, cs[k]) then 1 else 0
  {
    if n > 0 {
      var prior := CompanionDispatch(ad, cs, handler, n - 1);
      var last := CompanionEffects(ad, n - 1, cs[n - 1], handler);
      assert CompanionDispatch(ad, cs, handler, n) == prior + last;
      DispatchTracksShownCompanions(ad, cs, handler, n - 1, k);
      OccurrencesAppend(prior, last, CreativeView(ad, k));
      CompanionEffectsTrackOnce(ad, n - 1, cs[n - 1], handler, k);
      if k == n - 1 {
        assert Occurrences(prior, CreativeView(ad, k)) == 0;
      } else {
        assert Occurrences(last, CreativeView(ad, k)) == 0;
      }
    }
  }

  /** One companion's effects track `creativeView` for companion `k` only if it is `k` and is shown. */
  lemma CompanionEffectsTrackOnce(ad: nat, j: nat, c: Companion, handler: Option<Companion -> bool>, k: nat)
    ensures Occurrences(CompanionEffects(ad, j, c, handler), CreativeView(ad, k))
            == if j == k && ShownBy(handler, c) then 1 else 0
  {
    var e := CreativeView(ad, k);
    if handler.Some? {
      var tr := if handler.value(c) then [CreativeView(ad, j)] else [];
      assert CompanionEffects(ad, j, c, handler) == [RenderCompanion(ad, j)] + tr;
      OccurrencesAppend([RenderCompanion(ad, j)], tr, e);
      assert Occurrences([RenderCompanion(ad, j)], e) == 0;
      if handler.value(c) {
        assert tr[1..] == [];
      }
    }
  }

  /**
   * Every effect of the advance loop from candidate `c`, up to the ad it plays
   * or the end of the chain: the companion dispatch of each ad with data on
   * the way. An ad without data dispatches nothing; an ad without media is
   * passed over after its companions.
   */
  function WalkEffects(ads: seq<Ad>, c: Option<nat>, handler: Option<Companion -> bool>): seq<Effect>
    requires ChainWellFormed(ads) && InSupply(ads, c)
    decreases Rank(ads, c)
  {
    if c.None? then []
    else
      var a := ads[c.value];
      if !a.hasData then WalkEffects(ads, a.next, handler)
      else CompanionDispatch(c.value, a.companions, handler, |a.companions|)
           + (if HasMedia(a) then [] else WalkEffects(ads, a.next, handler))
  }

  /** An effect of the companion dispatch for an ad with data. */
  predicate CompanionEffectOf(ads: seq<Ad>, e: Effect)
  {
    match e
    case RenderCompanion(ad, _) => ad < |ads| && ads[ad].hasData
    case Track(target, event, time, media) =>
      target.CompanionOf? && target.ad < |ads| && ads[target.ad].hasData
      && event == "creativeView" && time.None? && media.None?
    case _ => false
  }

  lemma {:induction false} DispatchOnlyCompanions(ads: seq<Ad>, ad: nat, handler: Option<Companion -> bool>, n: nat)
    requires ad < |ads| && ads[ad].hasData && n <= |ads[ad].companions|
    ensures forall e :: e in CompanionDispatch(ad, ads[ad].companions, handler, n) ==> CompanionEffectOf(ads, e)
  {
    if n > 0 {
      DispatchOnlyCompanions(ads, ad, handler, n - 1);
    }
  }

  /**
   * The loop, before it plays or gives up, only dispatches companions of ads
   * with data: it never calls the ad-started or ads-ended handler, loads no
   * media and touches no linear creative.
   */
  lemma {:induction false} WalkOnlyDispatchesCompanions(ads: seq<Ad>, c: Option<nat>, handler: Option<Companion -> bool>)
    requires ChainWellFormed(ads) && InSupply(ads, c)
    ensures forall e :: e in WalkEffects(ads, c, handler) ==> CompanionEffectOf(ads, e)
    decreases Rank(ads, c)
  {
    if c.Some? {
      var a := ads[c.value];
      WalkOnlyDispatchesCompanions(ads, a.next, handler);
      if a.hasData {
        DispatchOnlyCompanions(ads, c.value, handler, |a.companions|);
      }
    }
  }

  /** The media the loop leaves in `adVideo`, starting from `prior`. */
  function WalkMedia(ads: seq<Ad>, c: Option<nat>, prior: Option<AdMedia>): (m: Option<AdMedia>)
    requires ChainWellFormed(ads) && InSupply(ads, c)
    decreases Rank(ads, c)
  {
    if c.None? then prior
    else
      var a := ads[c.value];
      if !a.hasData then WalkMedia(ads, a.next, prior)
      else if HasMedia(a) then a.linear.value.bestMedia
      else WalkMedia(ads, a.next, None)
  }

  /**
   * When the loop plays an ad, `adVideo` ends as that ad's media; when it
   * plays none, `adVideo` is `None` or, if it met no ad with data, unchanged.
   */
  lemma {:induction false} WalkMediaOfPlayed(ads: seq<Ad>, c: Option<nat>, prior: Option<AdMedia>)
    requires ChainWellFormed(ads) && InSupply(ads, c)
    ensures var r := FirstPlayable(ads, c);
            r.Some? ==> WalkMedia(ads, c, prior) == ads[r.value].linear.value.bestMedia
    ensures FirstPlayable(ads, c).None? ==> WalkMedia(ads, c, prior) in {None, prior}
    decreases Rank(ads, c)
  {
    if c.Some? {
      var a := ads[c.value];
      WalkMediaOfPlayed(ads, a.next, prior);
      WalkMediaOfPlayed(ads, a.next, None);
    }
  }

  /** The 'complete' track of lines 284-286 for the ad that was playing. */
  function CompleteEffects(active: Option<nat>, media: Option<AdMedia>, playing: bool, time: Millis): seq<Effect>
  {
    if media.Some? && playing && active.Some?
    then [Track(LinearOf(active.value), "complete", Some(time), Some(media.value.src))]
    else []
  }

  /** The effects of `_playVideoAd`: the ad-started handler with the duration, then `load()`. */
  function PlayAdEffects(hasStartHandler: bool, media: AdMedia): seq<Effect>
  {
    (if hasStartHandler then [AdStarted(media.duration)] else []) + [LoadCall]
  }

  /** The event `_onAdPlay` tracks: 'start' on an ad's first play, 'resume' afterwards. */
  function PlayTrackEvent(adPlaying: bool): string
  {
    if adPlaying then "resume" else "start"
  }

  /** The argument `_runAds` hands to `_showNextAd`: pre- and post-rolls drop it. */
  function RunAdsArg(point: InsertionPoint, ad: FirstArg): (r: FirstArg)
    ensures point == Start || point == End ==> r == NotAnAd
    ensures point == Position || point == BeforeContent ==> r == ad
  {
    match point
    case Start => NotAnAd
    case End => NotAnAd
    case Position => ad
    case BeforeContent => ad
  }

  /** The argument the mid-roll check passes: the break's first ad. */
  function MidrollArg(b: Break): FirstArg
  {
    AnAd(b.ad)
  }

  /** A mid-roll break plays from its own ad; a pre- or post-roll finds no ad to start from. */
  lemma RunAdsCandidates(ads: seq<Ad>, b: Break)
    requires ChainWellFormed(ads) && b.ad < |ads|
    ensures StartOf(ads, RunAdsArg(Position, MidrollArg(b)), None) == Some(b.ad)
    ensures StartOf(ads, RunAdsArg(Start, NotAnAd), None).None?
    ensures StartOf(ads, RunAdsArg(End, NotAnAd), None).None?
    ensures StartOf(ads, RunAdsArg(BeforeContent, NotAnAd), None).None?
  {
  }

  // ---- Lines 288-292 and 666 as written ----

  datatype Candidate = Candidate(c: Option<nat>) | NullDereference

  /** Lines 288-292 as written: with no `VASTAd` given, `this.activeAd.getNextAd()` is called even on null. */
  function StartAsWritten(ads: seq<Ad>, first: FirstArg, active: Option<nat>): Candidate
    requires ChainWellFormed(ads) && InSupply(ads, active)
  {
    match first
    case AnAd(a) => Candidate(Some(a))
    case NotAnAd => if active.Some? then Candidate(ads[active.value].next) else NullDereference
  }

  /** Line 666 as written passes the break record itself, which is not a `VASTAd`. */
  function MidrollArgAsWritten(b: Break): FirstArg
  {
    NotAnAd
  }

  /**
   * `_runAds` clears `activeAd` (line 385) before calling `_showNextAd`, so as
   * written every break throws at line 291, whatever its insertion point.
   */
  lemma RunAdsAsWrittenThrows(ads: seq<Ad>, point: InsertionPoint, b: Break)
    requires ChainWellFormed(ads)
    ensures var arg := if point == Position then MidrollArgAsWritten(b) else NotAnAd;
            StartAsWritten(ads, RunAdsArg(point, arg), None) == NullDereference
  {
  }
}

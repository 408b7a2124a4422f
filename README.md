# VASTAdPlayer in Dafny

A model of `VASTAdPlayer` from html5-video-vast. This is the ad-insertion state machine that watches an HTML5 video element. Its parts:

- It schedules pre-, mid- and post-roll breaks.
- When a break is due, it takes over the element: it saves the playback state and swaps the element's listeners.
- It walks a chain of VAST ads. Ads without data, or without a linear media file, are passed over. Companion banners are dispatched to a handler.
- It plays the first ad it can play and tracks that ad's events.
- Afterwards it gives the element back to the content and resumes it.

The model has these parts:

- `wrappers.dfy`: `Option`.
- `element.dfy` (module `Element`): the watched video element as a record. Its event listeners are a set of (event, handler tag) pairs. It also holds the listener rebinding done by `_takeover` and `_release`.
- `model.dfy` (module `Model`): ads, breaks, offsets, tracking points, the playback snapshot, and the effect log. Every outside effect is one `Effect` appended to a log: a `track` call, a callback, `play`/`pause`/`load`, `window.open`, `preventDefault`, or a dispatched DOM event.
- `scheduler.dfy` (module `Scheduler`):
  - the sorted break list and insertion into it;
  - the mid-roll scan;
  - the "no mid-roll fires twice" property;
  - line 159 as written.
- `tracking.dfy` (module `Tracking`):
  - when a tracking point is due;
  - what a progress tick fires and what it keeps;
  - the tick as written.
- `sequencing.dfy` (module `Sequencing`):
  - the chain of ads and its first playable ad;
  - companion dispatch;
  - the argument each break hands to the advance loop;
  - lines 288-292, 666 and 284-286 as written.
- `playback.dfy` (module `Playback`): what `_resumeOriginalVideo` does to the element and which effects it has.
- `advance.dfy` (module `Advance`): the advance loop `_showNextAd` as a function (`Walk`, `AdvanceFrom`) on the part of the player it changes, with lemmas about it.
- `player.dfy` (module `Player`): the class `VastAdPlayer`. It has the source's fields. Each event handler is a method with a `modifies` frame, proved against the specification functions above.

Modelling conventions:

- Time is integer milliseconds.
- A percentage offset is reached when the duration is known and `t * 100 >= pct * duration`, compared exactly.
- The ad supply is a fixed sequence `ads`. An ad handle is an index into it. `getNextAd()` is the field `next`, and every link points further down the sequence, so every chain is finite.
- The callbacks (`skipHandler.start`/`end`, `takeoverCallbacks.onTakeover`/`onRelease`) are modelled as "is a function" flags.
- The companion handler is an optional function from companion to boolean.
- Handlers that do not touch the ad chain or the breaks are framed tightly. They promise the part of the invariant (`SnapshotValid`) that concerns what they change, and leave the other parts to their frames.

## Model

| member | source | states |
|---|---|---|
| Element.ClickEventFor | src/html5-video-vast.js:40 | the player listens for 'touchstart' exactly on an iPad and for 'click' otherwise |
| Element.TakeoverListeners | src/html5-video-vast.js:239-249 | the rebinding of `_takeover`: the ad-mode listeners added and the content-mode ones removed; `TakeoverEntersAdMode` states its properties |
| Element.ReleaseListeners | src/html5-video-vast.js:259-269 | the rebinding of a release that removes every ad-mode listener and adds the content-mode ones; `ReleaseEntersContentMode` states its properties |
| Element.TakenOver | src/html5-video-vast.js:237-249 | the element as `_takeover` leaves it: controls hidden, listeners rebound for ad mode |
| Element.ReleasedVideo | src/html5-video-vast.js:258-269 | the element as a release leaves it: controls shown, listeners rebound for content mode |
| Element.TakeoverEntersAdMode | src/html5-video-vast.js:239-249 | after a takeover the element is in ad mode; every listener other than the content-mode ones stays, and nothing but the ad-mode ones is added |
| Element.ReleaseEntersContentMode | src/html5-video-vast.js:259-269 | after a release the element is in content mode; every listener it does not remove stays, and nothing but the content-mode ones is added |
| Element.TakeoverReleaseLeaksErrorListener | src/html5-video-vast.js:235-275 | as written, a takeover then a release leaves the listener set of a bare release plus the ad-mode 'error' listener, which `_release` never removes |
| Element.TakeoverReleaseRestoresListeners | src/html5-video-vast.js:235-275 | with the 'error' listener removed as well, a takeover then a release leaves exactly the listeners of a bare release, and no ad-mode listener |
| Scheduler.ResolvePosition | src/html5-video-vast.js:146-156 | a fetched position is rejected exactly when it is a percentage and the element has no duration; a timecode is kept; a percentage resolves to the millisecond at or just below that fraction of the duration |
| Scheduler.Insert | src/html5-video-vast.js:158-164 | the `push` and stable `sort` into a sorted list, one break longer; `InsertShape`, `InsertPlacement`, `InsertSorted` and `InsertPermutation` state where the break lands |
| Scheduler.InsertPlacement | src/html5-video-vast.js:158-164 | the new break lands after every break at or before it and before every later one, with the old breaks in their order around it |
| Scheduler.InsertSorted | src/html5-video-vast.js:158-164 | inserting into a list sorted by position keeps it sorted |
| Scheduler.InsertPermutation | src/html5-video-vast.js:158-164 | the new list is the old list plus exactly the new break, as a multiset |
| Scheduler.PassedCount | src/html5-video-vast.js:656-662 | the number of leading breaks the scan passes: all of them are at or before the playhead, and the next one, if any, is after it |
| Scheduler.DueBreak | src/html5-video-vast.js:656-662 | the due index is a break at or before the playhead; there is none exactly when the list is empty or its first break is later |
| Scheduler.DueBreakIsLatestPassed | src/html5-video-vast.js:656-662 | on a sorted list, a break is at or before the playhead if and only if its index is at most the due index |
| Scheduler.ScanBreaks | src/html5-video-vast.js:656-662 | the scan loop, which stops at the first break after the playhead, yields the due break |
| Scheduler.PassedCountMonotone | src/html5-video-vast.js:656-662 | a later playhead passes at least as many breaks |
| Scheduler.Fires | src/html5-video-vast.js:648-672 | the mid-roll check run at a sequence of playhead times over one break list: the indices it plays, each a break of the list, at most one per check |
| Scheduler.FiresAbove | src/html5-video-vast.js:648-672 | over non-decreasing playhead times, the mid-rolls fired after a given one are strictly increasing indices above it |
| Scheduler.MidrollNeverRepeats | src/html5-video-vast.js:648-672 | with `lastPlayedMidroll` starting unset, no break index is played twice as the playhead advances |
| Scheduler.MidrollScenario | src/html5-video-vast.js:648-672 | breaks at 10 s and 30 s, checked at 0 s, 15 s and 35 s, fire break 0 and then break 1 |
| Scheduler.UnresolvedBreakDueAtStart | src/html5-video-vast.js:158-161 | as written, a break fetched for '50%' of a ten-minute content is stored as the string and is due at time 0; stored resolved, at five minutes, it is not |
| Scheduler.MidrollReplaysAfterEarlierInsert | src/html5-video-vast.js:648-672 | `lastPlayedMidroll` holds an index: a break fetched before the last one played shifts that break to the next index, which the check then finds due and not yet played |
| Tracking.DueTime | src/html5-video-vast.js:451-460 | the first time a point is due: an absolute offset at its time, a percentage at the first millisecond its fraction of a known duration is reached, never with no duration |
| Tracking.Reached | src/html5-video-vast.js:451-460 | a point is due once the playhead reaches its due time |
| Tracking.ReachedExactly | src/html5-video-vast.js:451-460 | being due is exactly `t >= offset` for an absolute offset, and `d > 0 && t * 100 >= pct * d` for a percentage |
| Tracking.Fired | src/html5-video-vast.js:453-465 | the points a corrected tick fires, in queue order; `FiredPendingMembers` and `FiredPendingPartition` state which |
| Tracking.Pending | src/html5-video-vast.js:453-465 | the points a corrected tick keeps queued, in queue order |
| Tracking.FiredPendingMembers | src/html5-video-vast.js:453-465 | a tick fires exactly the queued points that are due and keeps exactly the others |
| Tracking.FiredPendingPartition | src/html5-video-vast.js:453-465 | every queued point is either fired or kept, each exactly once |
| Tracking.ReachedMonotone | src/html5-video-vast.js:453-465 | a point that is due stays due at every later time |
| Tracking.FiresExactlyOnce | src/html5-video-vast.js:453-465 | two ticks at increasing times fire each point of the queue at most once between them, and leave exactly what one tick at the later time leaves |
| Tracking.TickStep | src/html5-video-vast.js:453-465 | the tick loop's step: one more queued point is either appended to what fires or to what is kept |
| Tracking.TrackEffects | src/html5-video-vast.js:462-464 | a tick logs one linear `track` per fired point, in order, with that point's event, the current time and the ad's source |
| Tracking.TrackEffectsAppend | src/html5-video-vast.js:453-465 | the track effects of two consecutive parts of a queue are those of the whole queue |
| Tracking.TickAsWritten | src/html5-video-vast.js:453-465 | the tick as written: percentages compared with the fraction, a numeric offset throwing at line 459, nothing removed; it tracks at most the queued points |
| Tracking.NumericOffsetThrows | src/html5-video-vast.js:456-460 | as written, a numeric offset makes the tick throw at `indexOf` and track nothing; corrected, a 5 s point fires at 6 s |
| Tracking.PercentageComparedWithFraction | src/html5-video-vast.js:451-461 | as written, a 25% point is tracked at 10% of the ad; corrected, it is not yet due |
| Tracking.AsWrittenFiresTwice | src/html5-video-vast.js:453-465 | as written, two ticks track the same quartile twice; corrected, a point fired once is not fired again |
| Sequencing.StartOf | src/html5-video-vast.js:288-292 | the candidate is the given `VASTAd`; otherwise it is the successor of the active ad; with no active ad there is none |
| Sequencing.FirstPlayable | src/html5-video-vast.js:294-339 | the ad the loop stops at has a linear creative with media and lies at or after the candidate |
| Sequencing.FirstPlayableIsFirst | src/html5-video-vast.js:294-339 | the ad the loop plays is on the chain, and every ad on the chain before it is not playable; when it plays none, no ad on the chain is |
| Sequencing.ReachesForward | src/html5-video-vast.js:305-334 | every ad on a chain lies at or after the chain's first ad |
| Sequencing.CompanionEffects | src/html5-video-vast.js:347-359 | the effects of showing one companion: the handler's render when there is a handler, then one `creativeView` track when it answers true; `CompanionEffectsTrackOnce` states this |
| Sequencing.CompanionDispatch | src/html5-video-vast.js:321-327 | the effects of the companion loop over the first `n` companions, in order; `DispatchTracksShownCompanions` states what it tracks |
| Sequencing.DispatchTracksShownCompanions | src/html5-video-vast.js:321-327 | the companion loop tracks `creativeView` for a companion exactly once when the handler exists and answers true for it, and never otherwise |
| Sequencing.CompanionEffectsTrackOnce | src/html5-video-vast.js:347-359 | showing one companion tracks `creativeView` only for that companion and only when the handler shows it |
| Sequencing.DispatchOnlyCompanions | src/html5-video-vast.js:321-327 | the companion loop of an ad only renders and tracks that ad's companions |
| Sequencing.WalkEffects | src/html5-video-vast.js:305-334 | the effects of the loop before it plays or gives up: the companion dispatch of each ad with data on the chain, up to the first playable one |
| Sequencing.WalkOnlyDispatchesCompanions | src/html5-video-vast.js:305-334 | before an ad plays, the loop's only effects are companion renders and `creativeView` tracks of ads on the chain; an ad without data dispatches nothing |
| Sequencing.WalkMedia | src/html5-video-vast.js:312-317 | the `adVideo` the loop leaves: reset for each ad with data, set from its linear creative; `WalkMediaOfPlayed` states its value |
| Sequencing.WalkMediaOfPlayed | src/html5-video-vast.js:312-317 | `adVideo` ends as the played ad's media; when no ad plays it ends null or, when no ad with data was met, unchanged |
| Sequencing.RunAdsArg | src/html5-video-vast.js:380-397 | pre- and post-roll breaks hand no ad to the advance loop; mid-roll and 'onBeforeContent' hand over what they were given |
| Sequencing.RunAdsCandidates | src/html5-video-vast.js:380-397 | a mid-roll break starts from its own first ad; a pre-roll, a post-roll or an 'onBeforeContent' run finds no ad to start from |
| Sequencing.StartAsWritten | src/html5-video-vast.js:288-292 | the candidate as written: the given `VASTAd`, otherwise `activeAd.getNextAd()`, which throws on a null active ad |
| Sequencing.RunAdsAsWrittenThrows | src/html5-video-vast.js:283-397 | as written, every break reaches `activeAd.getNextAd()` on a null `activeAd` |
| Playback.ResumedVideo | src/html5-video-vast.js:591-611 | the element after a resume: played in place or given back its saved source, released, and for ended content autoplay cleared and the source restored; the lemmas below state its properties |
| Playback.ResumeEffects | src/html5-video-vast.js:591-611 | the effects of a resume, in order: `play` or `load` for unended content, the release callback, and 'ended' for ended content |
| Playback.ResumeReleasesElement | src/html5-video-vast.js:591-611 | after a resume the controls are shown and the element is in content mode: content listeners bound and ad listeners gone |
| Playback.ResumeRestoresSource | src/html5-video-vast.js:591-611 | a non-empty saved source is the element's source after a resume; with a falsy one, unended content keeps its source |
| Playback.ResumeOfEndedContent | src/html5-video-vast.js:591-611 | content that had ended gets autoplay cleared and exactly one 'ended' dispatch, and neither `play` nor `load`; otherwise there is no 'ended' dispatch, and `play` happens exactly when the source can stay |
| Playback.SnapshotRoundTrip | src/html5-video-vast.js:475-611 | snapshot the element, let a break change it, resume: the content source is back and the element is in content mode |
| Model.Snapshot | src/html5-video-vast.js:486-488 | the snapshot holds the element's `currentSrc`, `currentTime` and `ended`, and keeps the buffering flag |
| Model.OccurrencesAppend | src/html5-video-vast.js:283-339 | occurrences in a log of two parts add up |
| Advance.Walk | src/html5-video-vast.js:283-339 | after the loop no ad counts as playing and the active ad is on the supply |
| Advance.WalkOutcome | src/html5-video-vast.js:294-541 | the loop only appends to the log; when it plays an ad, that ad is playable and its media, tracking points and source are loaded; otherwise the unsent points stay and the content is resumed |
| Advance.EndingEffects | src/html5-video-vast.js:294-302 | the effects of giving up: the ads-ended handler when it is set, then the resume effects |
| Advance.AdvanceFrom | src/html5-video-vast.js:283-339 | `_showNextAd(first)`: the 'complete' track of an ad that was playing, the candidate, then the loop from it |
| Advance.WalkPlaysFirstPlayable | src/html5-video-vast.js:294-339 | with ads enabled, the loop stops at the first playable ad of the chain, or at none |
| Advance.WalkLog | src/html5-video-vast.js:294-541 | the loop's log is the companion dispatch of every ad with data on the way, then either the played ad's start handler and `load`, or the end handler and the resume effects |
| Advance.AdvanceFromNothing | src/html5-video-vast.js:288-302 | with no ad to start from, an advance ends the ads at once: end handler, resume, no ad active |
| Advance.AdvanceFromAsWritten | src/html5-video-vast.js:283-339 | the advance as written, as far as `adPlaying` goes: when it plays another ad the flag keeps its old value |
| Advance.SecondAdTracksResumeAsWritten | src/html5-video-vast.js:283-413 | with the first ad of a chain playing and its successor playable, the advance makes the successor active; its first 'play' tracks 'resume' as written and 'start' with the flag cleared |
| Advance.ContentErrorAfterBreak | src/html5-video-vast.js:502-524 | a media error on the content after a break: as written the 'error' listener is still bound and line 291 meets a null active ad; even with line 291 corrected it ends the ads and resumes the content a second time; with the listener released, the handler is not bound |
| Player.VastAdPlayer.constructor | src/html5-video-vast.js:11-41 | the new player has no breaks, no active ad, ads enabled, no callbacks, an empty snapshot, and the click event of its platform |
| Player.VastAdPlayer.SetSkipHandler | src/html5-video-vast.js:91-94 | the ad-started and ads-ended handlers are the given ones |
| Player.VastAdPlayer.SetTakeoverCallbacks | src/html5-video-vast.js:102-105 | the takeover and release callbacks are the given ones |
| Player.VastAdPlayer.SetAdsEnabled | src/html5-video-vast.js:119-121 | enables or disables ads |
| Player.VastAdPlayer.SetCompanionHandler | src/html5-video-vast.js:135-137 | sets or clears the companion handler |
| Player.VastAdPlayer.SetVideoProperties | src/html5-video-vast.js:174-178 | sets width, height and bitrate of the request settings and nothing else of them |
| Player.VastAdPlayer.OnAdBreakFetched | src/html5-video-vast.js:146-165 | a rejected percentage leaves the breaks unchanged; otherwise the resolved break is inserted in order, the list stays sorted, and it gains exactly that break |
| Player.VastAdPlayer.Takeover | src/html5-video-vast.js:235-254 | controls hidden, ad listeners bound, content listeners removed, the takeover callback called when set |
| Player.VastAdPlayer.Release | src/html5-video-vast.js:256-275 | controls shown, every ad listener removed (the 'error' one included), content listeners bound, the release callback called when set |
| Player.VastAdPlayer.ShowNextAd | src/html5-video-vast.js:283-339 | the advance loop leaves the state `AdvanceFrom` describes, with `adPlaying` cleared once 'complete' is tracked, and it returns true exactly when ads are enabled and an ad is active |
| Player.VastAdPlayer.ShowFrom | src/html5-video-vast.js:294-307 | the loop from the current candidate leaves the state `Walk` describes |
| Player.VastAdPlayer.ShowAdWithData | src/html5-video-vast.js:309-339 | an ad with data: its media is selected, its companions are dispatched, then it plays or the loop goes on; leaves the state `Walk` describes |
| Player.VastAdPlayer.EndAds | src/html5-video-vast.js:294-302 | the end handler is called when set, then the content is resumed |
| Player.VastAdPlayer.SkipCurrentAd | src/html5-video-vast.js:110-112 | skipping advances the loop from the active ad |
| Player.VastAdPlayer.ShowCompanions | src/html5-video-vast.js:319-327 | every companion of the ad is offered to the handler, in order |
| Player.VastAdPlayer.ShowCompanionBanner | src/html5-video-vast.js:347-359 | returns true exactly when a handler exists and shows the banner; only then is `creativeView` tracked |
| Player.VastAdPlayer.OnVastError | src/html5-video-vast.js:368-371 | a VAST error resumes the content |
| Player.VastAdPlayer.RunAds | src/html5-video-vast.js:380-397 | pause, snapshot, take over, record the insertion point, clear the active ad, then advance with the argument of the insertion point; with no ad to start from, the break ends at once |
| Player.VastAdPlayer.BeginBreak | src/html5-video-vast.js:380-385 | the part of `_runAds` before the advance: pause, snapshot, takeover, insertion point, no active ad |
| Player.VastAdPlayer.PrepareAdPlayback | src/html5-video-vast.js:475-499 | with an ad playing, or no element, it returns false and changes nothing; otherwise it snapshots the element, takes it over, leaves `adPlaying` false and returns true |
| Player.VastAdPlayer.OnAdPlay | src/html5-video-vast.js:402-413 | tracks 'start' at 0 on the first play and 'resume' at the current time afterwards; the ad then counts as playing |
| Player.VastAdPlayer.OnAdClick | src/html5-video-vast.js:420-439 | tracks 'click', opens a non-empty click-through URL, shows controls, pauses, swaps the click listener for click-to-resume, and prevents the default |
| Player.VastAdPlayer.OnAdClickToResume | src/html5-video-vast.js:555-558 | plays the element |
| Player.VastAdPlayer.OnAdCanPlay | src/html5-video-vast.js:546-550 | tracks `creativeView`, plays, and rewinds to 0 |
| Player.VastAdPlayer.OnAdTick | src/html5-video-vast.js:444-468 | does nothing unless an element, a media file and a playing ad exist; otherwise it tracks exactly the due points, in order, and keeps the others queued |
| Player.VastAdPlayer.OnAdError | src/html5-video-vast.js:502-524 | an ad error advances the loop from the active ad |
| Player.VastAdPlayer.PlayVideoAd | src/html5-video-vast.js:531-541 | loads the ad's tracking points, calls the start handler with the media's duration, sets the source and loads |
| Player.VastAdPlayer.OnVideoCanPlay | src/html5-video-vast.js:563-586 | with no point to resume at, it plays; it seeks only once the seekable range covers the point, and then clears the buffering flag and the point; otherwise it pauses, marks buffering and schedules a re-poll |
| Player.VastAdPlayer.BufferPollElapsed | src/html5-video-vast.js:578 | the scheduled re-poll runs the ready-to-play handler again |
| Player.VastAdPlayer.ResumeOriginalVideo | src/html5-video-vast.js:591-611 | `adPlaying` ends false, the element is left as `ResumedVideo` describes, and the log gains exactly `ResumeEffects` |
| Player.VastAdPlayer.TriggerVideoEvent | src/html5-video-vast.js:619-628 | dispatches the event when an element is watched, and does nothing otherwise |
| Player.VastAdPlayer.CheckForPreroll | src/html5-video-vast.js:633-638 | runs the 'start' break once; once the flag is set, it changes nothing |
| Player.VastAdPlayer.CheckForMidroll | src/html5-video-vast.js:648-672 | fires exactly when no ad plays and a break is due that is not the last one played; it then records that break and runs the mid-roll from its ad; otherwise it changes nothing |
| Player.VastAdPlayer.CheckForPostroll | src/html5-video-vast.js:677-682 | runs the 'end' break once; once the flag is set, it changes nothing |
| Player.VastAdPlayer.WatchPlayer | src/html5-video-vast.js:699-721 | a non-video element is refused with nothing changed; otherwise both flags are reset, a paused element is watched with `adPlaying` left as it was, an already playing element gets the 'onBeforeContent' break and the pre-roll marked shown, and the three content listeners are bound |

## Left out

- Logging (`log`, `logError`, the `debug` flag) is not modelled. It has no effect on state.
- User-agent sniffing is a constructor parameter `isIPad`. `_needControls` is not modelled; no core method calls it.
- `window.open`, `e.preventDefault()` and `dispatchEvent` are recorded effects only. In the browser, `dispatchEvent` (line 627) runs the listeners at once; the model does not run them. So the 'ended' dispatch of line 609 does not re-enter `_checkForPostroll`. After a post-roll that call does nothing, because line 679 has set the flag. But when the snapshot was taken at the content's end, for example by a mid-roll fired on the last 'timeupdate', the source runs a post-roll there that the model does not.
- `load()` is a recorded effect only. Its reset of `currentTime`, `paused` and `ended` on the element is not reflected in the record.
- `setTimeout` in the buffering poll is the flag `repollPending`. `BufferPollElapsed` is the timer firing.
- `Function.prototype.bind`, its polyfill and `_bindContextForCallbacks` are not modelled. Handlers are tags in the listener set.
- `loadVMAP` and `loadVAST` are empty stubs and are left out.
- The external VAST classes are inputs. `getBestMedia` is the field `bestMedia`, `getTrackingPoints` is `trackingPoints`, `getNextAd` is `next`, and `track` is a logged effect. `timecodeFromString` yields an `Offset`.
- Scheduler.ResolvePosition: assumes `timecodeFromString` hands back a string (something with `indexOf`) for every position. If it returns a number for an 'HH:MM:SS' position, line 148 throws and such a break is never stored; the model stores it at its time.
- The media-error classification in `_onAdError` only logs. Only the advance is modelled.
- Floating-point time is integer milliseconds. A percentage break position is rounded down to the millisecond.
- A null `timeToResume` is the same as 0. `_onVideoCanPlay` treats both alike.
- The request settings' `playbackPosition` is never set by the core. It stays as constructed.
- Player.VastAdPlayer.RunAds: requires that no ad is playing. As written, `_runAds` during a playing ad reaches `this.activeAd.linear` on the null it has just stored (line 385 then 285), and that throw is not modelled. Only `_checkForMidroll` tests `adPlaying` (line 649). `_checkForPreroll` and `_checkForPostroll` rely on `_takeover` having removed their listeners, and `watchPlayer` has no guard.
- Player.VastAdPlayer.WatchPlayer: an already playing element while an ad is playing is excluded. There the source reaches `_runAds` and throws at line 285; the model does not capture that throw. A paused element is accepted whatever `adPlaying` is.
- Player.VastAdPlayer.SkipCurrentAd: requires a watched element. Before `watchPlayer`, the source throws at line 291 on the null active ad (or, with that line corrected, at line 258 inside the resume); that throw is not modelled.
- Player.VastAdPlayer.OnVastError: requires a watched element. Before `watchPlayer`, `_resumeOriginalVideo` skips line 593's branch and then `_release` throws at line 258; that throw is not modelled.
- Player.VastAdPlayer.ShowNextAd, EndAds and ResumeOriginalVideo: require a watched element, for the same throw at line 258 (and line 605). With that requirement, line 593's `this.player` test always holds, and the model leaves it out.
- Player.VastAdPlayer.OnAdPlay, OnAdClick and OnAdCanPlay: require a loaded ad, because the source dereferences `activeAd.linear` and `adVideo` unguarded. Their listeners are bound only during a break.
- Player.VastAdPlayer.OnVideoCanPlay, BufferPollElapsed, EndAds and ResumeOriginalVideo: promise `SnapshotValid()` rather than the whole `Valid()`. Their frames do not include the fields of the other parts.
- The re-entrant call of `_showNextAd()` from `ShowAdWithData` goes to `ShowFrom`. That skips only the 'complete' check, and the check does nothing there because `adPlaying` is already false.

## Findings

| source | as written | input that shows it | evidently intended | confidence | as-written member | corrected member |
|---|---|---|---|---|---|---|
| src/html5-video-vast.js:159 | the break stores the unresolved `position` string; the resolved `p` is dropped, and a string break compares false with `>`, so the scan finds it passed | a break at '50%' of a ten-minute content, checked at time 0 | store the resolved position | not executed | Scheduler.UnresolvedBreakDueAtStart | Scheduler.ResolvePosition |
| src/html5-video-vast.js:291 | with no `VASTAd` given, `this.activeAd.getNextAd()` is called on the null that `_runAds` stored at line 385 | any pre-roll, post-roll or 'onBeforeContent' break | no candidate: end the ads and resume | not executed | Sequencing.RunAdsAsWrittenThrows | Sequencing.StartOf |
| src/html5-video-vast.js:666 | the break record itself is passed to `_runAds`, which is not a `VASTAd` | any due mid-roll | pass the break's ad | not executed | Sequencing.RunAdsAsWrittenThrows | Sequencing.RunAdsCandidates |
| src/html5-video-vast.js:457-459 | a numeric offset is compared as `offset >= time` and then `p.indexOf` throws a TypeError, ending the tick | a 5 s progress point at 6 s | fire the point once the playhead reaches it | not executed | Tracking.NumericOffsetThrows | Tracking.FiredPendingMembers |
| src/html5-video-vast.js:451-460 | a whole percentage is compared with the fraction `time / duration`, in the wrong direction | a 25% quartile at 2 s of a 20 s ad | fire once `time / duration` reaches the percentage | not executed | Tracking.PercentageComparedWithFraction | Tracking.FiredPendingMembers |
| src/html5-video-vast.js:453-465 | a fired point is never removed from `unsentTrackingPoints` | two ticks at 2 s and 3 s of a 20 s ad with a 25% point | fire each point once | not executed | Tracking.AsWrittenFiresTwice | Tracking.FiresExactlyOnce |
| src/html5-video-vast.js:284-286 | 'complete' is tracked but `adPlaying` stays true, so the next ad's first 'play' tracks 'resume'; the stale flag also makes the re-entrant `_showNextAd()` of line 307 re-run line 284 on an ad without data, calling `activeAd.linear.track('complete')` on it | a chain of two playable ads, the first played to its end | clear `adPlaying` once the ad completes | not executed | Advance.SecondAdTracksResumeAsWritten | Player.VastAdPlayer.ShowNextAd |
| src/html5-video-vast.js:260-265 | `_release` does not remove the 'error' listener `_takeover` added at line 244, so a media error on the content runs `_onAdError`, which calls `_showNextAd()` and throws at line 291 on the null active ad | a content 'error' event after a break | remove the 'error' listener on release | not executed | Element.TakeoverReleaseLeaksErrorListener | Element.TakeoverReleaseRestoresListeners |

`Advance.ContentErrorAfterBreak` states the consequence of the 'error' listener row: what `_onAdError` does in content mode as written, and that the corrected release unbinds it.

Two quirks are modelled as written, not corrected:

- Line 25 initialises `lastPlayedBreak`, but line 663 reads `lastPlayedMidroll`. Both start unset, `None` here, so this has no visible effect.
- `lastPlayedMidroll` is an index into `breaks`, and `_onAdBreakFetched` can insert a break before it. A break already played can then play again; `Scheduler.MidrollReplaysAfterEarlierInsert` shows this with a break at 30 s played at 35 s, a break fetched for 10 s, and a check at 36 s. What a break's identity should be is not stated by the source, so the model keeps the index.

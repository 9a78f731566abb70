# LunarTag automation core, modelled in Dafny

LunarTag is an Android app. It stamps photos, then schedules each one to be shared into a
WhatsApp group. An alarm arms a job. An accessibility service then drives WhatsApp's UI,
one accessibility event at a time, until it clicks a send button. This project models:

- that driver (`LunarTagAccessibilityService`);
- its node-search engine;
- the alarm that arms it (`AlarmReceiver`);
- the calibration overlay that records the coordinate it taps (`OverlayService`);
- the settings screen that supplies its parameters (`SettingsFragment`);
- the ad-gated unlock tiers (`AdManager`);
- the activity that collects every component's log messages (`MainActivity`).

Modules, leaves first:

- `Optional`, `Text`, `Prefs`: Java `null`, the `String` operations the code relies on,
  and `SharedPreferences` as a `map<string, Value>` with typed getters and defaults.
- `UiTree`: an accessibility snapshot is a sequence of nodes. Each node names its parent
  and its children by index, and parents come first, so every parent climb and every
  depth-first walk terminates. `PreOrder` is the pre-order listing of a subtree.
- `NodeSearch`: `cleanString` and the four recursive searches. The searches are one
  generic depth-first search over a `Probe`, and each is proved equal to "the first hit in
  the pre-order listing". It also holds the two parent climbs: the unbounded one of
  `recursiveSearchAndClick` and the one of `performClick`, bounded at 6. The loops of the
  source are methods proved against these functions.
- `Driver`: one event is one step of a state machine (`AfterEvent`). Each
  `Handler.postDelayed` callback becomes a `Deferred` entry that the environment fires
  later, in any order (`AfterFire`): the 500 ms click settle, the 500 ms share-sheet tap and
  the 800 ms scroll cooldown. Platform actions are recorded as `Action`s.
  The platform's indexed lookups (`findAccessibilityNodeInfosByText`/`ByViewId`) arrive
  with the event as lists of node indices. Only one thing is assumed of them: that they
  name nodes of the snapshot.
- `Service`: the service as a class. Its fields are updated in place by
  `OnAccessibilityEvent` and by the callbacks, and every method is proved to move the
  object exactly as `Driver` says.
- `Ads`, `Alarm`, `Overlay`, `Settings`, `Activity`: the other five core files.

Main results:

- Click exclusion. At most one click is in flight, and one is in flight exactly while
  `isClickingPending` is set (`Driver.EventKeepsInv`, `Driver.FireKeepsInv`). This holds
  when no force reset is read. A force reset clears the flag without cancelling a posted
  callback, so a second click can then be posted while the first is still in flight.
  `Driver.ForceResetAllowsTwoClicks` exhibits this on a run from the initial state: a
  WhatsApp event posts the click on the group's row, the flag is then set, and the same
  screen posts a second click while the first is still in flight.
- Scroll exclusion. A scroll cooldown is pending exactly while `isScrolling` is set
  (`Driver.EventKeepsSound`).
- The searches. Every search is the first hit of a pre-order walk (`NodeSearch.DfsIsFirstHit`).
  The click that follows a search climbs at most 6 nodes (`Driver.SettleClickWithinBound`).
- The hand-off. The alarm is the only writer that raises `job_is_pending`
  (`Alarm.JobArmedOnlyWithGroup`, `Driver.EventNeverArmsJob`). The driver clears it in the
  same pass as the send click (`Driver.SendClearsJob`).

## Model

| member | source | states |
|---|---|---|
| `NodeSearch.CleanString` | app/src/main/java/com/lunartag/app/services/LunarTagAccessibilityService.java:298-301 | null cleans to ""; a cleaned text has no space, no newline and no upper-case letter, and its ends are trimmed; every character of it is a character of the lower-cased input |
| `NodeSearch.CleanStringIdempotent` | app/src/main/java/com/lunartag/app/services/LunarTagAccessibilityService.java:298-301 | cleaning a cleaned text changes nothing |
| `NodeSearch.CleanStringIgnoresCase` | app/src/main/java/com/lunartag/app/services/LunarTagAccessibilityService.java:298-301 | lower-casing before cleaning changes nothing |
| `NodeSearch.CleanStringIgnoresInsertedBlank` | app/src/main/java/com/lunartag/app/services/LunarTagAccessibilityService.java:298-301 | inserting a space or a newline anywhere does not change the cleaned text |
| `NodeSearch.GroupSpellingsMatch` | app/src/main/java/com/lunartag/app/services/LunarTagAccessibilityService.java:279-280 | "My Group", "my group" and "My  Group" all clean to "mygroup", so each matches that query |
| `NodeSearch.RecursiveCheckText` | app/src/main/java/com/lunartag/app/services/LunarTagAccessibilityService.java:217-225 | true exactly when some node of the subtree has a cleaned text or description containing the query |
| `NodeSearch.HasText` | app/src/main/java/com/lunartag/app/services/LunarTagAccessibilityService.java:209-215 | true exactly when the indexed lookup found something, or some node of the pre-order listing from the root has a cleaned text or description containing the cleaned query |
| `NodeSearch.DfsIsFirstHit` | app/src/main/java/com/lunartag/app/services/LunarTagAccessibilityService.java:217-225 | the recursive walk (probe the node, then each child in order) returns the first hit of the subtree's pre-order listing |
| `NodeSearch.DfsChildrenIsFirstHit` | app/src/main/java/com/lunartag/app/services/LunarTagAccessibilityService.java:221-223 | the loop over children from the k-th on returns the first hit of their concatenated pre-order listings |
| `NodeSearch.FindScrollable` | app/src/main/java/com/lunartag/app/services/LunarTagAccessibilityService.java:341-349 | the first scrollable node in pre-order; None exactly when no node of the subtree is scrollable |
| `NodeSearch.DescriptionClickTarget` | app/src/main/java/com/lunartag/app/services/LunarTagAccessibilityService.java:252-273 | the first pre-order hit of a lower-cased description containing the target, with the node or its parent clickable; the result is clickable |
| `NodeSearch.SearchClickTarget` | app/src/main/java/com/lunartag/app/services/LunarTagAccessibilityService.java:275-296 | the nearest clickable ancestor-or-self of the first text match that has one; a match without one is skipped; the result is clickable |
| `NodeSearch.IndexedClickable` | app/src/main/java/com/lunartag/app/services/LunarTagAccessibilityService.java:229-237 | an indexed match that is clickable or has a clickable parent; None exactly when no match qualifies |
| `NodeSearch.IndexedClickableIsFirst` | app/src/main/java/com/lunartag/app/services/LunarTagAccessibilityService.java:229-237 | the match chosen is the first that qualifies: every match before it is neither clickable nor has a clickable parent |
| `NodeSearch.MarkerClickTarget` | app/src/main/java/com/lunartag/app/services/LunarTagAccessibilityService.java:227-239 | nothing for an empty text; whatever node it returns is reached by the bounded climb of performClick |
| `NodeSearch.SelfOrParentClickableIsReached` | app/src/main/java/com/lunartag/app/services/LunarTagAccessibilityService.java:232 | a node that is clickable, or whose parent is, is clicked by performClick |
| `NodeSearch.BoundedClimbDepth` | app/src/main/java/com/lunartag/app/services/LunarTagAccessibilityService.java:317-329 | a successful climb stops at depth d < 6 on a clickable node, and no nearer node of the parent chain is clickable |
| `NodeSearch.BoundedClimbNone` | app/src/main/java/com/lunartag/app/services/LunarTagAccessibilityService.java:317-329 | a failed climb means none of the first 6 nodes of the parent chain is clickable |
| `NodeSearch.BoundedClimbAgrees` | app/src/main/java/com/lunartag/app/services/LunarTagAccessibilityService.java:283-286 | when the bounded climb succeeds it finds the same node as the unbounded climb |
| `NodeSearch.ClimbToClickable` | app/src/main/java/com/lunartag/app/services/LunarTagAccessibilityService.java:283-286 | the while loop returns the nearest clickable ancestor-or-self, or None |
| `NodeSearch.NearestClickable` | app/src/main/java/com/lunartag/app/services/LunarTagAccessibilityService.java:283-286 | the climb of recursiveSearchAndClick: whatever it returns is a clickable node on the parent chain (an index no larger than the start) |
| `NodeSearch.BoundedClimb` | app/src/main/java/com/lunartag/app/services/LunarTagAccessibilityService.java:317-329 | the climb of performClick: whatever it returns is a clickable node on the parent chain; with no budget left it returns nothing |
| `NodeSearch.PerformClick` | app/src/main/java/com/lunartag/app/services/LunarTagAccessibilityService.java:317-329 | the loop returns the node the bounded climb (at most 6 nodes) clicks, None when it clicks nothing |
| `NodeSearch.RecursiveSearchAndClick` | app/src/main/java/com/lunartag/app/services/LunarTagAccessibilityService.java:275-296 | the recursion with its climbing loop returns exactly the search target of the cleaned query |
| `NodeSearch.ScanIndexedMatches` | app/src/main/java/com/lunartag/app/services/LunarTagAccessibilityService.java:229-237 | the for-each loop returns the qualifying indexed match of `IndexedClickable`, and every match before it fails the test |
| `Driver.AfterVisualClick` | app/src/main/java/com/lunartag/app/services/LunarTagAccessibilityService.java:303-315 | a request while a click is pending changes nothing; otherwise isClickingPending is set and exactly one settle callback for the node is posted |
| `Driver.AfterScroll` | app/src/main/java/com/lunartag/app/services/LunarTagAccessibilityService.java:331-339 | unless scrolling, the first scrollable node in pre-order is scrolled forward, isScrolling is set and one cooldown is posted; with nothing scrollable, or while scrolling, nothing changes; the click flags and the store are never touched |
| `Driver.SendTarget` | app/src/main/java/com/lunartag/app/services/LunarTagAccessibilityService.java:151-161 | the send button chosen is a node of the snapshot; its order of probes is stated by `Driver.SendTargetOrder` |
| `Driver.LogTypeOf` | app/src/main/java/com/lunartag/app/services/LunarTagAccessibilityService.java:355-359 | the type sent with a log message is "error" or "info"; `Activity.ServiceMessagesBlink` states when it is "error" |
| `Driver.CancelShownIsHasText` | app/src/main/java/com/lunartag/app/services/LunarTagAccessibilityService.java:209-215 | the share-sheet test is hasText(root, "Cancel") on the cleaned query "cancel" |
| `Driver.SendTargetOrder` | app/src/main/java/com/lunartag/app/services/LunarTagAccessibilityService.java:151-161 | the probes run in the order send arrow, send, fab, description "send": a found arrow wins, then a found send, then a found fab; only when all three lookups are empty is the target the first pre-order node whose description contains "send"; the target carries one of the ids or is that clickable description match |
| `Driver.IgnoredPackageIsNoOp` | app/src/main/java/com/lunartag/app/services/LunarTagAccessibilityService.java:71-80 | a null package, or one that is not whitelisted, leaves every flag and the store unchanged |
| `Driver.ForceResetIsConsumed` | app/src/main/java/com/lunartag/app/services/LunarTagAccessibilityService.java:88-94 | a whitelisted event always writes force_reset_logic back to false; without a root it only clears isClickingPending and the flag |
| `Driver.PendingClickBlocksEvent` | app/src/main/java/com/lunartag/app/services/LunarTagAccessibilityService.java:95 | while a click is pending and no reset is requested, an event changes nothing |
| `Driver.PendingClickBlocksRun` | app/src/main/java/com/lunartag/app/services/LunarTagAccessibilityService.java:95 | any number of events in a row change nothing until a callback fires |
| `Driver.NoJobNoAction` | app/src/main/java/com/lunartag/app/services/LunarTagAccessibilityService.java:143-148 | without a pending job nothing is clicked, tapped, scrolled or posted; only the share flag and the reset wipe can change |
| `Driver.EventNeverArmsJob` | app/src/main/java/com/lunartag/app/services/LunarTagAccessibilityService.java:148 | no event sets job_is_pending |
| `Driver.ShareSheetTap` | app/src/main/java/com/lunartag/app/services/LunarTagAccessibilityService.java:107-138 | in mode "full" outside WhatsApp, a tap is posted exactly when the job is pending, the sheet is untapped and x > 0 and y > 0; the job stays pending |
| `Driver.ShareFlagResetOffSheet` | app/src/main/java/com/lunartag/app/services/LunarTagAccessibilityService.java:103-105 | off the share sheet, shareSheetClicked is false afterwards |
| `Driver.SendClearsJob` | app/src/main/java/com/lunartag/app/services/LunarTagAccessibilityService.java:163-171 | a found send button posts its click and clears job_is_pending in the same pass; the group search does not run |
| `Driver.WhatsAppPhaseFrame` | app/src/main/java/com/lunartag/app/services/LunarTagAccessibilityService.java:143-192 | the WhatsApp branch writes no store key except job_is_pending, and writes that one only to false |
| `Driver.EmptyGroupDoesNothing` | app/src/main/java/com/lunartag/app/services/LunarTagAccessibilityService.java:182-190 | with no send button and an empty group nothing is posted, clicked or scrolled |
| `Driver.GroupPhaseOutcome` | app/src/main/java/com/lunartag/app/services/LunarTagAccessibilityService.java:182-190 | an empty group changes nothing; a row found by findMarkerAndClick gets its click posted, within reach of the bounded climb; with no row, the first scrollable node is scrolled when not already scrolling; otherwise nothing changes |
| `Driver.SettleClickWithinBound` | app/src/main/java/com/lunartag/app/services/LunarTagAccessibilityService.java:311-314 | the settle callback clears isClickingPending and clicks an ancestor-or-self found within 6 nodes, or clicks nothing when none is clickable |
| `Driver.FireKeepsStore` | app/src/main/java/com/lunartag/app/services/LunarTagAccessibilityService.java:126-134 | no callback writes the store; in particular the share tap never clears job_is_pending |
| `Driver.EventKeepsSound` | app/src/main/java/com/lunartag/app/services/LunarTagAccessibilityService.java:331-339 | every event keeps the callbacks well formed and a cooldown pending exactly while isScrolling |
| `Driver.EventKeepsInv` | app/src/main/java/com/lunartag/app/services/LunarTagAccessibilityService.java:303-315 | without a force reset, every event keeps at most one click in flight, and one exactly while isClickingPending |
| `Driver.FireKeepsInv` | app/src/main/java/com/lunartag/app/services/LunarTagAccessibilityService.java:311-314 | every callback keeps both exclusion invariants |
| `Driver.InitialInv` | app/src/main/java/com/lunartag/app/services/LunarTagAccessibilityService.java:34-39 | the service's initial fields satisfy the invariants |
| `Driver.ForceResetAllowsTwoClicks` | app/src/main/java/com/lunartag/app/services/LunarTagAccessibilityService.java:88-95 | from the initial state, a group click is posted; after force_reset_logic is set, the same screen posts a second click while the first is in flight: two clicks pending |
| `Driver.GroupRowEvent` | app/src/main/java/com/lunartag/app/services/LunarTagAccessibilityService.java:88-95 | with a pending job for the group, an event gets past the pending-click check when no click is pending or a reset is requested, and then posts the click on the group's row |
| `Service.LunarTagService.constructor` | app/src/main/java/com/lunartag/app/services/LunarTagAccessibilityService.java:34-43 | all flags false, no callbacks, state STATE_IDLE, invariants hold |
| `Service.LunarTagService.OnAccessibilityEvent` | app/src/main/java/com/lunartag/app/services/LunarTagAccessibilityService.java:70-193 | the fields move as one step of the state machine; the invariants are kept |
| `Service.LunarTagService.ExecuteVisualClick` | app/src/main/java/com/lunartag/app/services/LunarTagAccessibilityService.java:303-315 | a request while a click is pending is dropped; otherwise the flag is set and one settle callback is posted |
| `Service.LunarTagService.PerformScroll` | app/src/main/java/com/lunartag/app/services/LunarTagAccessibilityService.java:331-339 | unless scrolling, scrolls the first scrollable node forward and posts the cooldown |
| `Service.LunarTagService.FindMarkerAndClickID` | app/src/main/java/com/lunartag/app/services/LunarTagAccessibilityService.java:241-249 | true exactly when the view-id lookup is non-empty, and then its first node is handed to the click |
| `Service.LunarTagService.FindMarkerAndClickContentDescription` | app/src/main/java/com/lunartag/app/services/LunarTagAccessibilityService.java:252-273 | true exactly when the description search has a target, and then that target is handed to the click |
| `Service.LunarTagService.FindMarkerAndClick` | app/src/main/java/com/lunartag/app/services/LunarTagAccessibilityService.java:227-239 | true exactly when the indexed matches or the recursive search give a target, and then it is handed to the click |
| `Service.LunarTagService.ScreenStep` | app/src/main/java/com/lunartag/app/services/LunarTagAccessibilityService.java:100-143 | the share-sheet test, the flag reset and the branch choice |
| `Service.LunarTagService.ShareSheetClick` | app/src/main/java/com/lunartag/app/services/LunarTagAccessibilityService.java:107-138 | the one-shot coordinate tap |
| `Service.LunarTagService.WhatsAppStep` | app/src/main/java/com/lunartag/app/services/LunarTagAccessibilityService.java:143-180 | the gatekeeper, the ordered send probes, clearing the job and the toast throttle |
| `Service.LunarTagService.GroupSearch` | app/src/main/java/com/lunartag/app/services/LunarTagAccessibilityService.java:182-190 | the group search with its scroll fallback |
| `Service.LunarTagService.FireDeferred` | app/src/main/java/com/lunartag/app/services/LunarTagAccessibilityService.java:311-314 | a posted callback runs: the click climb, the tap or the cooldown expiry; the invariants are kept |
| `Service.LunarTagService.OnInterrupt` | app/src/main/java/com/lunartag/app/services/LunarTagAccessibilityService.java:371-374 | the state becomes STATE_IDLE; nothing else changes |
| `Ads.AdLevel` | app/src/main/java/com/lunartag/app/utils/AdManager.java:203-206 | the stored level, 0 when the key is absent |
| `Ads.SlotsRemaining` | app/src/main/java/com/lunartag/app/utils/AdManager.java:208-211 | the stored slot count, 0 when the key is absent |
| `Ads.Upgraded` | app/src/main/java/com/lunartag/app/utils/AdManager.java:127-148 | level 0 becomes 1 with 3 slots and today's unlock date; 1 becomes 2 with 5 slots; 2 becomes 3 with slots kept; any other level is unchanged; other keys are kept |
| `Ads.Decremented` | app/src/main/java/com/lunartag/app/utils/AdManager.java:213-219 | positive slots go down by exactly 1; otherwise the store is unchanged |
| `Ads.ShiftReset` | app/src/main/java/com/lunartag/app/utils/AdManager.java:159-199 | level and slots become 0 exactly when the shift end parsed and the unlock date is not today; otherwise the store is unchanged |
| `Ads.UpgradeNeverLowers` | app/src/main/java/com/lunartag/app/utils/AdManager.java:132-145 | an upgrade never lowers the level and never takes it above 3 |
| `Ads.UpgradeStepsOneLevel` | app/src/main/java/com/lunartag/app/utils/AdManager.java:132-145 | below level 3 each reward adds exactly one level |
| `Ads.UnlimitedIsFinal` | app/src/main/java/com/lunartag/app/utils/AdManager.java:141-145 | level 3 is a fixed point |
| `Ads.ThreeRewardsUnlockAll` | app/src/main/java/com/lunartag/app/utils/AdManager.java:127-153 | three rewards from level 0 reach level 3, keeping the first unlock date |
| `Ads.TierKeepsLevelInRange` | app/src/main/java/com/lunartag/app/utils/AdManager.java:127-219 | upgrade, decrement and shift reset keep the level within 0..3 |
| `Ads.DecrementNeverNegative` | app/src/main/java/com/lunartag/app/utils/AdManager.java:213-219 | slots never go below zero |
| `Ads.DecrementedTimesSlots` | app/src/main/java/com/lunartag/app/utils/AdManager.java:213-219 | after n uses, positive slots s become max(s - n, 0), and the level is kept |
| `Ads.SameDayUnlockSurvives` | app/src/main/java/com/lunartag/app/utils/AdManager.java:186-194 | an unlock survives a shift check on the same day |
| `Ads.NewDayLocks` | app/src/main/java/com/lunartag/app/utils/AdManager.java:186-194 | a successful check on another day locks the tier |
| `Ads.ShiftResetIdempotent` | app/src/main/java/com/lunartag/app/utils/AdManager.java:159-199 | checking twice is the same as checking once |
| `Ads.AdManager.constructor` | app/src/main/java/com/lunartag/app/utils/AdManager.java:56-59 | the constructor starts a load |
| `Ads.AdManager.LoadRewardedAd` | app/src/main/java/com/lunartag/app/utils/AdManager.java:64-86 | no-op when an ad is loaded or a load is in flight; otherwise sets isAdLoading |
| `Ads.AdManager.OnAdLoaded` | app/src/main/java/com/lunartag/app/utils/AdManager.java:80-84 | an ad is held and isAdLoading is cleared |
| `Ads.AdManager.OnAdFailedToLoad` | app/src/main/java/com/lunartag/app/utils/AdManager.java:73-77 | no ad is held and isAdLoading is cleared |
| `Ads.AdManager.ShowRewardedAd` | app/src/main/java/com/lunartag/app/utils/AdManager.java:92-98 | without an ad it reports failure and starts a reload; it never changes the tier |
| `Ads.AdManager.OnUserEarnedReward` | app/src/main/java/com/lunartag/app/utils/AdManager.java:114-120 | the reward is the only path to an upgrade |
| `Ads.AdManager.OnAdDismissed` | app/src/main/java/com/lunartag/app/utils/AdManager.java:102-105 | the ad is used up and the next load starts |
| `Ads.AdManager.OnAdFailedToShow` | app/src/main/java/com/lunartag/app/utils/AdManager.java:108-111 | the ad is dropped and the failure is reported |
| `Ads.AdManager.UpgradeAdLevel` | app/src/main/java/com/lunartag/app/utils/AdManager.java:127-148 | the store becomes `Upgraded` of the old store |
| `Ads.AdManager.CheckShiftReset` | app/src/main/java/com/lunartag/app/utils/AdManager.java:159-199 | the store becomes `ShiftReset` of the old store |
| `Ads.AdManager.DecrementSlot` | app/src/main/java/com/lunartag/app/utils/AdManager.java:213-219 | the store becomes `Decremented` of the old store |
| `Ads.AdManager.GetAdLevel` | app/src/main/java/com/lunartag/app/utils/AdManager.java:203-206 | the stored level, 0 when absent |
| `Ads.AdManager.GetSlotsRemaining` | app/src/main/java/com/lunartag/app/utils/AdManager.java:208-211 | the stored slots, 0 when absent |
| `Alarm.IntCast` | app/src/main/java/com/lunartag/app/receivers/AlarmReceiver.java:107 | Java's `(int)` of a long: within the int range, congruent mod 2^32, and the identity on ints |
| `Alarm.Armed` | app/src/main/java/com/lunartag/app/receivers/AlarmReceiver.java:140-152 | a non-empty group writes target_group_name and job_is_pending := true; an empty group leaves the store unchanged; no other key changes |
| `Alarm.OnReceive` | app/src/main/java/com/lunartag/app/receivers/AlarmReceiver.java:50-109 | ignored exactly for a null or empty path, or a plain path whose file is missing or unshareable; when ignored nothing is written; otherwise the store is armed before dispatch |
| `Alarm.RejectedDeliveryIsNoOp` | app/src/main/java/com/lunartag/app/receivers/AlarmReceiver.java:57-91 | a rejected path arms nothing and launches nothing |
| `Alarm.JobArmedOnlyWithGroup` | app/src/main/java/com/lunartag/app/receivers/AlarmReceiver.java:140-152 | job_is_pending is set afterwards exactly when it was before, or the delivery was accepted with a group |
| `Alarm.HandOffArmsDriver` | app/src/main/java/com/lunartag/app/receivers/AlarmReceiver.java:93-94 | an accepted delivery with a group leaves a pending job for that group, keeping the mode and the reset flag |
| `Alarm.DispatchFollowsMode` | app/src/main/java/com/lunartag/app/receivers/AlarmReceiver.java:96-108 | mode "full" launches directly or falls back to notification 999; any other mode posts notification `(int) photoId` |
| `Alarm.LaunchOnlyInFullMode` | app/src/main/java/com/lunartag/app/receivers/AlarmReceiver.java:114-134 | a direct launch happens only in mode "full" and only when it succeeded |
| `Alarm.NotificationIdsWrap` | app/src/main/java/com/lunartag/app/receivers/AlarmReceiver.java:107 | photo ids 2^32 apart share a notification id |
| `Alarm.SmallIdsAreKept` | app/src/main/java/com/lunartag/app/receivers/AlarmReceiver.java:107 | ids in the int range are kept |
| `Overlay.Saved` | app/src/main/java/com/lunartag/app/services/OverlayService.java:276-313 | the slot of the mode holds the position plus 75 on each axis; every other key is unchanged |
| `Overlay.SlotsAreDistinct` | app/src/main/java/com/lunartag/app/services/OverlayService.java:286-311 | each mode writes two distinct calibration keys; two modes share a slot only when both fall to the share default |
| `Overlay.OtherSlotsKeepShareIcon` | app/src/main/java/com/lunartag/app/services/OverlayService.java:286-303 | training the group, chat or preview slot leaves share_icon_x/y alone |
| `Overlay.SaveKeepsJob` | app/src/main/java/com/lunartag/app/services/OverlayService.java:276-313 | a calibration never touches job_is_pending or force_reset_logic |
| `Overlay.ShareCalibrationFeedsDriver` | app/src/main/java/com/lunartag/app/services/OverlayService.java:305-310 | after calibrating the share icon, the driver's one-shot tap goes to the saved centre |
| `Overlay.CoordinateBox` | app/src/main/java/com/lunartag/app/services/OverlayService.java:154-157 | the box is (x, y, x+150, y+150) |
| `Overlay.ShownTraining` | app/src/main/java/com/lunartag/app/services/OverlayService.java:184-214 | showTrainingTarget is a no-op when attached; otherwise it attaches the crosshair at (500, 1000) |
| `Overlay.SavedState` | app/src/main/java/com/lunartag/app/services/OverlayService.java:276-315 | saving writes the slot and detaches the crosshair, and changes nothing else |
| `Overlay.DragThenTapSaves` | app/src/main/java/com/lunartag/app/services/OverlayService.java:242-264 | a drag then a tap saves the start position plus the touch delta plus 75 |
| `Overlay.OverlayService.constructor` | app/src/main/java/com/lunartag/app/services/OverlayService.java:38-43 | nothing is attached, and the mode is MODE_SHARE |
| `Overlay.OverlayService.OnStartCommand` | app/src/main/java/com/lunartag/app/services/OverlayService.java:100-114 | a start-training command records the mode, or "MODE_SHARE" when it is null, then shows the crosshair |
| `Overlay.OverlayService.ShowMarkerAt` | app/src/main/java/com/lunartag/app/services/OverlayService.java:120-150 | the crosshair is detached; the box takes the bounds and is attached |
| `Overlay.OverlayService.ShowMarkerAtCoordinate` | app/src/main/java/com/lunartag/app/services/OverlayService.java:154-157 | the box is the 150 by 150 square at (x, y) |
| `Overlay.OverlayService.HideMarker` | app/src/main/java/com/lunartag/app/services/OverlayService.java:167-178 | the box is detached; nothing else changes |
| `Overlay.OverlayService.ShowTrainingTarget` | app/src/main/java/com/lunartag/app/services/OverlayService.java:184-225 | as `ShownTraining` |
| `Overlay.OverlayService.OnTouchDown` | app/src/main/java/com/lunartag/app/services/OverlayService.java:242-248 | records the start position and the touch point |
| `Overlay.OverlayService.OnTouchMove` | app/src/main/java/com/lunartag/app/services/OverlayService.java:250-254 | the new position is the start position plus the touch delta |
| `Overlay.OverlayService.OnTouchUp` | app/src/main/java/com/lunartag/app/services/OverlayService.java:256-266 | a tap saves the calibration; anything else changes nothing |
| `Overlay.OverlayService.SaveCoordinates` | app/src/main/java/com/lunartag/app/services/OverlayService.java:276-315 | as `SavedState` |
| `Overlay.OverlayService.RemoveTrainingView` | app/src/main/java/com/lunartag/app/services/OverlayService.java:317-324 | the crosshair is detached; nothing else changes |
| `Overlay.OverlayService.OnDestroy` | app/src/main/java/com/lunartag/app/services/OverlayService.java:332-337 | both views are detached |
| `Settings.Hour12` | app/src/main/java/com/lunartag/app/ui/settings/SettingsFragment.java:211-217 | the 12-hour clock hour is within 1..12 and equal to the hour of day modulo 12 |
| `Settings.AmPm` | app/src/main/java/com/lunartag/app/ui/settings/SettingsFragment.java:211-217 | "PM" exactly from hour 12 on, else "AM" |
| `Settings.Pad2` | app/src/main/java/com/lunartag/app/ui/settings/SettingsFragment.java:219 | `%02d`: two decimal digits whose value is the number |
| `Settings.FormatTime` | app/src/main/java/com/lunartag/app/ui/settings/SettingsFragment.java:219 | "hh:mm AM/PM": eight characters, the 12-hour hour and the minute each padded to two digits, a colon, a space and the AM/PM marker |
| `Settings.ParseFormatRoundTrip` | app/src/main/java/com/lunartag/app/ui/settings/SettingsFragment.java:207-219 | reading back the formatted "hh:mm AM/PM" text gives the picked hour and minute |
| `Settings.FormatTimeInjective` | app/src/main/java/com/lunartag/app/ui/settings/SettingsFragment.java:207-219 | two different picked times never show the same text |
| `Settings.DefaultShiftIsNotPicked` | app/src/main/java/com/lunartag/app/ui/settings/SettingsFragment.java:151-152 | the default "00:00 AM" is never produced by the picker |
| `Settings.SaveSettings` | app/src/main/java/com/lunartag/app/ui/settings/SettingsFragment.java:174-194 | the target app label is saved trimmed |
| `Settings.SaveKeepsDriverKeys` | app/src/main/java/com/lunartag/app/ui/settings/SettingsFragment.java:191-194 | in the access store, saving writes only target_app_label |
| `Settings.MethodName` | app/src/main/java/com/lunartag/app/ui/settings/SettingsFragment.java:183-187 | "coordinate" exactly when the coordinate radio is checked |
| `Settings.SaveWritesForm` | app/src/main/java/com/lunartag/app/ui/settings/SettingsFragment.java:176-187 | company and group are saved trimmed, the shift texts as they are, and the method by the radio |
| `Settings.LoadSettings` | app/src/main/java/com/lunartag/app/ui/settings/SettingsFragment.java:148-172 | on empty stores the shifts default to "00:00 AM", the method to red_box and the names to "" |
| `Settings.LoadAfterSave` | app/src/main/java/com/lunartag/app/ui/settings/SettingsFragment.java:148-194 | loading what was saved shows the form back with the three names trimmed |
| `Settings.SaveNormalisedSame` | app/src/main/java/com/lunartag/app/ui/settings/SettingsFragment.java:177-193 | saving a form whose names are already trimmed writes the same as saving the original form |
| `Settings.SaveTwiceSame` | app/src/main/java/com/lunartag/app/ui/settings/SettingsFragment.java:174-194 | saving the same form twice leaves both stores as after the first save |
| `Settings.SaveIdempotent` | app/src/main/java/com/lunartag/app/ui/settings/SettingsFragment.java:148-194 | saving again right after loading changes nothing |
| `Settings.SavedGroupIsHandedOff` | app/src/main/java/com/lunartag/app/ui/settings/SettingsFragment.java:180 | the group the alarm arms the driver with is the saved group, trimmed |
| `Settings.RewardUnlocksEditor` | app/src/main/java/com/lunartag/app/ui/settings/SettingsFragment.java:246-267 | a locked user who earns the reward reaches level 1, and a second press on the same day opens the editor |
| `Settings.SettingsScreen.constructor` | app/src/main/java/com/lunartag/app/ui/settings/SettingsFragment.java:148-172 | the screen starts out showing the loaded settings |
| `Settings.SettingsScreen.Load` | app/src/main/java/com/lunartag/app/ui/settings/SettingsFragment.java:148-172 | the form becomes `LoadSettings` of the stores |
| `Settings.SettingsScreen.Save` | app/src/main/java/com/lunartag/app/ui/settings/SettingsFragment.java:174-194 | the stores become `SaveSettings` of the form |
| `Settings.SettingsScreen.OnTimeSet` | app/src/main/java/com/lunartag/app/ui/settings/SettingsFragment.java:207-226 | the formatted time goes into the start or the end field |
| `Settings.SettingsScreen.OnAdminClick` | app/src/main/java/com/lunartag/app/ui/settings/SettingsFragment.java:246-274 | the shift check runs first; the editor opens exactly when the level is then above 0; otherwise an ad is requested, which fails exactly when none is loaded |
| `Activity.LogEntry` | app/src/main/java/com/lunartag/app/MainActivity.java:61-67 | an accepted intent adds its message followed by one newline; any other intent adds nothing |
| `Activity.LoggedAppend` | app/src/main/java/com/lunartag/app/MainActivity.java:67 | the history of two runs of intents is the first part followed by the second |
| `Activity.LoggedIgnoresRejected` | app/src/main/java/com/lunartag/app/MainActivity.java:61-65 | intents with another action or without a message add nothing |
| `Activity.ServiceMessagesBlink` | app/src/main/java/com/lunartag/app/MainActivity.java:240-247 | a service message blinks red exactly when its lower-cased text contains "error", "fail" or "missing" |
| `Activity.BlinkExamples` | app/src/main/java/com/lunartag/app/MainActivity.java:242-247 | a null type and "info" blink green; "ERROR" blinks red |
| `Activity.Missing` | app/src/main/java/com/lunartag/app/MainActivity.java:304-311 | the list to request is never longer than the required list; `Activity.MissingMembers` states its members and `Activity.MissingAppend` its order |
| `Activity.MissingMembers` | app/src/main/java/com/lunartag/app/MainActivity.java:306-311 | a permission is requested exactly when it is required, non-null and not granted |
| `Activity.MissingAppend` | app/src/main/java/com/lunartag/app/MainActivity.java:306-311 | the filter keeps the original order |
| `Activity.PermissionsToRequest` | app/src/main/java/com/lunartag/app/MainActivity.java:303-311 | the loop builds exactly the missing list, and "all already granted" holds exactly when that list is empty |
| `Activity.AllGranted` | app/src/main/java/com/lunartag/app/MainActivity.java:197-203 | true exactly when every value of the result map is true |
| `Activity.MainActivity.constructor` | app/src/main/java/com/lunartag/app/MainActivity.java:100-101 | the history starts with "-- SYSTEM STARTED --\n", then "System: Permissions Granted.\n" exactly when nothing was missing; a launch happens exactly when something was |
| `Activity.MainActivity.CheckAndRequestPermissions` | app/src/main/java/com/lunartag/app/MainActivity.java:303-320 | launches the missing list when it is non-empty; runs onPermissionsGranted when it is empty |
| `Activity.MainActivity.OnPermissionsGranted` | app/src/main/java/com/lunartag/app/MainActivity.java:322-324 | appends the granted line |
| `Activity.MainActivity.OnPermissionResult` | app/src/main/java/com/lunartag/app/MainActivity.java:196-209 | appends the granted line exactly when every answer is a grant |
| `Activity.MainActivity.OnReceive` | app/src/main/java/com/lunartag/app/MainActivity.java:60-70 | the history grows by `LogEntry` of the intent; an accepted message blinks in `BlinkColor` of its type |
| `Activity.MainActivity.GetGlobalLogs` | app/src/main/java/com/lunartag/app/MainActivity.java:89-91 | returns exactly the accumulated history |

Some functions are reference definitions with no contract of their own. Each is a direct
transcription of the cited lines, and what it promises is stated by the lemmas and
methods named after it:

- `Driver.AfterEvent` (LunarTagAccessibilityService.java:70-193):
  `Driver.IgnoredPackageIsNoOp`, `Driver.ForceResetIsConsumed`,
  `Driver.PendingClickBlocksEvent`, `Driver.NoJobNoAction`, `Driver.EventNeverArmsJob`,
  `Driver.ShareFlagResetOffSheet`, `Driver.EventKeepsSound`, `Driver.EventKeepsInv` and
  `Service.LunarTagService.OnAccessibilityEvent`.
- `Driver.AfterFire` (126-134, 311-314 and 336-338): `Driver.SettleClickWithinBound`,
  `Driver.FireKeepsStore`, `Driver.FireKeepsInv` and `Service.LunarTagService.FireDeferred`.
- `Driver.SharePhase` (107-138): `Driver.ShareSheetTap`.
- `Driver.WhatsAppPhase` (143-190): `Driver.SendClearsJob`, `Driver.WhatsAppPhaseFrame`
  and `Driver.EmptyGroupDoesNothing`.
- `Driver.GroupPhase` (182-190): `Driver.GroupPhaseOutcome`.
- `Activity.BlinkColor` (MainActivity.java:240-247): `Activity.ServiceMessagesBlink` and
  `Activity.BlinkExamples`.

## Where the design and the code differ

Where the design description and the code disagree, the model follows the code.

- The code has no timeout watchdog and no start timestamp.
- It does not track the previous foreground app.
- Its only state value is `STATE_IDLE`, which only `onInterrupt` writes.
- Coordinate mode has one step flag, `shareSheetClicked`. The share-sheet tap does not
  clear `job_is_pending`.
- Scrolling is gated by the `isScrolling` flag, which an 800 ms callback clears. There is
  no timestamp, and there is no backward scroll.
- The driver does not search for the target app label in the chooser. `target_app_label`
  is only saved and loaded by the settings screen.

## Left out

- Android platform calls are not modelled. `getRootInActiveWindow` is the event's `root`.
  The indexed lookups are lists of node indices given with the event, and only their
  validity is assumed. `performAction` and `dispatchGesture` are recorded `Action`s and
  are assumed to succeed.
- Real time is not modelled. The 500 ms and 800 ms delays are `Deferred` entries that may
  fire in any order. The 3000 ms toast throttle compares integer timestamps passed in with
  the event.
- Toasts, broadcasts, `WindowManager` calls, notification building, `FileProvider`/`Uri`
  and navigation are not modelled. Their effects appear only as recorded outcomes
  (`Dispatch`, `AdminOutcome`, the blink colours).
- LunarTagAccessibilityService.java:232 dereferences `node.getParent()` without a null
  check. There Java throws a NullPointerException. The model treats a missing parent as
  not clickable and goes on to the next match.
- The searches are not limited to visible nodes, and the platform never recycles nodes.
  A snapshot is immutable, and a posted click acts on the snapshot it was found in.
- `SharedPreferences` getters on a key holding another type throw `ClassCastException` in
  Java. The model returns the default instead.
- `toLowerCase` is modelled for ASCII letters only. The locale-dependent and Unicode case
  mappings are not modelled.
- `checkShiftReset` takes the outcome of parsing the shift end with `SimpleDateFormat`
  ("hh:mm a") as a boolean, and takes today's `yyyyMMdd` date as a string.
  `Calendar` alignment is not modelled; the source computes it and then ignores it.
- In `AlarmReceiver`, whether the file exists, whether `FileProvider` produced a URI and
  whether `startActivity` succeeded are boolean inputs. A missing photo id defaults to the
  clock, which is passed in as an integer.
- `OverlayService` runs the bodies of `handler.post` immediately. The source checks
  `isTrainingAttached` before posting, so two quick calls could attach two crosshairs; the
  model does not capture that.
- Overlay.OverlayService.OnTouchUp: the tap-versus-drag decision uses float arithmetic
  (`Math.sqrt`, 200 ms, 15 px), so the caller passes it in as `isTap`. Touch coordinates
  are integers, so the `(int)` truncation of the float delta is not modelled.
- Overlay.OverlayService.ShowMarkerAt: the blink ends with `hideMarker` posted after 800 ms
  (OverlayService.java:164), so the program detaches the box again by itself. In the model
  the box stays attached until the environment calls `HideMarker`.
- Settings.SettingsScreen.OnAdminClick models a press on a visible admin button. The button
  is shown and wired only when `customTimestampEnabled` is set in `LunarTagFeatureToggles`
  (SettingsFragment.java:231-239, 277-279); that toggle is not modelled.
- The blink animation timings, the navigation bar colours and the theme colour lookup
  are not modelled.
- The `LogFragment` live append is not modelled.
- `WatermarkUtils.java`, `MyFirebaseMessagingService.java`, `LogFragment.java` and the
  `com/safevoice` files are not part of this model.

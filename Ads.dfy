/**
 * The rewarded-ad unlock tiers of AdManager. The tier lives in the LunarTagAdsPrefs
 * store: level 0 is locked, level 1 grants 3 slots, level 2 grants 5 slots and level 3
 * is unlimited. Watching an ad moves one level up, using the admin button spends a
 * slot, and a new day locks everything again.
 */
module Ads {
  import opened Prefs

  const KEY_AD_LEVEL := "ad_level"
  const KEY_SLOTS_REMAINING := "slots_remaining"
  const KEY_LAST_UNLOCK_DATE := "last_unlock_date"

  /** The unlimited tier. */
  const MAX_LEVEL := 3

  /** getAdLevel: the stored level, 0 when none is stored. */
  function AdLevel(p: Store): (r: int)
    ensures KEY_AD_LEVEL !in p ==> r == 0
    ensures KEY_AD_LEVEL in p && p[KEY_AD_LEVEL].IntV? ==> r == p[KEY_AD_LEVEL].i
  {
    GetInt(p, KEY_AD_LEVEL, 0)
  }

  /** getSlotsRemaining: the stored slot count, 0 when none is stored. */
  function SlotsRemaining(p: Store): (r: int)
    ensures KEY_SLOTS_REMAINING !in p ==> r == 0
    ensures KEY_SLOTS_REMAINING in p && p[KEY_SLOTS_REMAINING].IntV? ==> r == p[KEY_SLOTS_REMAINING].i
  {
    GetInt(p, KEY_SLOTS_REMAINING, 0)
  }

  /** The date of the last unlock from level 0, "" when there was none. */
  function LastUnlock(p: Store): string {
    GetString(p, KEY_LAST_UNLOCK_DATE, "")
  }

  /** The three keys of this store that the tier logic writes. */
  predicate IsAdKey(k: string) {
    k == KEY_AD_LEVEL || k == KEY_SLOTS_REMAINING || k == KEY_LAST_UNLOCK_DATE
  }

  /** Every key other than the tier keys holds what it held in `p`. */
  predicate OthersKept(p: Store, r: Store) {
    && (forall k :: k in p && !IsAdKey(k) ==> k in r && r[k] == p[k])
    && (forall k :: k in r && !IsAdKey(k) ==> k in p)
  }

  /** The store after upgradeAdLevel, when the reward arrives on day `today`. */
  function Upgraded(p: Store, today: string): (r: Store)
    ensures AdLevel(p) == 0 ==> AdLevel(r) == 1 && SlotsRemaining(r) == 3 && LastUnlock(r) == today
    ensures AdLevel(p) == 1 ==> AdLevel(r) == 2 && SlotsRemaining(r) == 5 && LastUnlock(r) == LastUnlock(p)
    ensures AdLevel(p) == 2 ==> AdLevel(r) == 3 && SlotsRemaining(r) == SlotsRemaining(p) && LastUnlock(r) == LastUnlock(p)
    ensures !(0 <= AdLevel(p) <= 2) ==> r == p
    ensures OthersKept(p, r)
  {
    var level := AdLevel(p);
    if level == 0 then
      PutString(PutInt(PutInt(p, KEY_AD_LEVEL, 1), KEY_SLOTS_REMAINING, 3), KEY_LAST_UNLOCK_DATE, today)
    else if level == 1 then
      PutInt(PutInt(p, KEY_AD_LEVEL, 2), KEY_SLOTS_REMAINING, 5)
    else if level == 2 then
      PutInt(p, KEY_AD_LEVEL, 3)
    else
      p
  }

  /** The store after decrementSlot: one slot fewer when any is left. */
  function Decremented(p: Store): (r: Store)
    ensures SlotsRemaining(p) > 0 ==> SlotsRemaining(r) == SlotsRemaining(p) - 1
    ensures SlotsRemaining(p) <= 0 ==> r == p
    ensures AdLevel(r) == AdLevel(p) && LastUnlock(r) == LastUnlock(p)
    ensures OthersKept(p, r)
  {
    var current := SlotsRemaining(p);
    if current > 0 then PutInt(p, KEY_SLOTS_REMAINING, current - 1) else p
  }

  /**
   * The store after checkShiftReset. `parsed` says whether the stored shift end parsed
   * as a time; `today` is the current date in the format of the unlock date.
   */
  function ShiftReset(p: Store, parsed: bool, today: string): (r: Store)
    ensures parsed && LastUnlock(p) != today ==> AdLevel(r) == 0 && SlotsRemaining(r) == 0
    ensures !parsed || LastUnlock(p) == today ==> r == p
    ensures LastUnlock(r) == LastUnlock(p)
    ensures OthersKept(p, r)
  {
    if parsed && LastUnlock(p) != today then
      PutInt(PutInt(p, KEY_AD_LEVEL, 0), KEY_SLOTS_REMAINING, 0)
    else
      p
  }

  /** The levels the tier logic produces. */
  predicate LevelInRange(p: Store) {
    0 <= AdLevel(p) <= MAX_LEVEL
  }

  lemma UpgradeNeverLowers(p: Store, today: string)
    ensures AdLevel(p) <= AdLevel(Upgraded(p, today))
    ensures AdLevel(p) <= MAX_LEVEL ==> AdLevel(Upgraded(p, today)) <= MAX_LEVEL
  {
  }

  /** Below the unlimited tier, each reward moves exactly one level up. */
  lemma UpgradeStepsOneLevel(p: Store, today: string)
    requires 0 <= AdLevel(p) < MAX_LEVEL
    ensures AdLevel(Upgraded(p, today)) == AdLevel(p) + 1
  {
  }

  /** The unlimited tier is a fixed point of upgradeAdLevel. */
  lemma UnlimitedIsFinal(p: Store, today: string)
    requires AdLevel(p) == MAX_LEVEL
    ensures Upgraded(p, today) == p
  {
  }

  /** Three rewards in a row take a locked user to the unlimited tier. */
  lemma ThreeRewardsUnlockAll(p: Store, d1: string, d2: string, d3: string)
    requires AdLevel(p) == 0
    ensures AdLevel(Upgraded(Upgraded(Upgraded(p, d1), d2), d3)) == MAX_LEVEL
    ensures LastUnlock(Upgraded(Upgraded(Upgraded(p, d1), d2), d3)) == d1
  {
    var p1 := Upgraded(p, d1);
    var p2 := Upgraded(p1, d2);
    assert AdLevel(p1) == 1 && LastUnlock(p1) == d1;
    assert AdLevel(p2) == 2 && LastUnlock(p2) == d1;
  }

  /** Every tier operation keeps the level among 0..3. */
  lemma TierKeepsLevelInRange(p: Store, today: string, parsed: bool)
    requires LevelInRange(p)
    ensures LevelInRange(Upgraded(p, today))
    ensures LevelInRange(Decremented(p))
    ensures LevelInRange(ShiftReset(p, parsed, today))
  {
  }

  /** decrementSlot never takes a non-negative slot count below zero. */
  lemma DecrementNeverNegative(p: Store)
    requires SlotsRemaining(p) >= 0
    ensures SlotsRemaining(Decremented(p)) >= 0
  {
  }

  /** `n` uses of the admin button in a row. */
  function DecrementedTimes(p: Store, n: nat): Store
    decreases n
  {
    if n == 0 then p else Decremented(DecrementedTimes(p, n - 1))
  }

  /** After `n` decrements a positive slot count `s` is max(s - n, 0); a non-positive one stays. */
  lemma {:induction false} DecrementedTimesSlots(p: Store, n: nat)
    ensures SlotsRemaining(p) > 0 ==>
      SlotsRemaining(DecrementedTimes(p, n)) == if SlotsRemaining(p) >= n then SlotsRemaining(p) - n else 0
    ensures SlotsRemaining(p) <= 0 ==> SlotsRemaining(DecrementedTimes(p, n)) == SlotsRemaining(p)
    ensures AdLevel(DecrementedTimes(p, n)) == AdLevel(p)
    decreases n
  {
    if n > 0 {
      DecrementedTimesSlots(p, n - 1);
    }
  }

  /** An unlock from level 0 survives a shift check on the same day. */
  lemma SameDayUnlockSurvives(p: Store, today: string, parsed: bool)
    requires AdLevel(p) == 0
    ensures ShiftReset(Upgraded(p, today), parsed, today) == Upgraded(p, today)
    ensures AdLevel(ShiftReset(Upgraded(p, today), parsed, today)) == 1
  {
  }

  /** A successful shift check on another day than the unlock locks the admin button. */
  lemma NewDayLocks(p: Store, today: string)
    requires LastUnlock(p) != today
    ensures AdLevel(ShiftReset(p, true, today)) == 0
    ensures SlotsRemaining(ShiftReset(p, true, today)) == 0
  {
  }

  /** Running checkShiftReset twice in a row is the same as running it once. */
  lemma {:induction false} ShiftResetIdempotent(p: Store, parsed: bool, today: string)
    ensures ShiftReset(ShiftReset(p, parsed, today), parsed, today) == ShiftReset(p, parsed, today)
  {
    var r := ShiftReset(p, parsed, today);
    if parsed && LastUnlock(p) != today {
      assert LastUnlock(r) == LastUnlock(p);
      var r2 := ShiftReset(r, parsed, today);
      assert r2 == PutInt(PutInt(r, KEY_AD_LEVEL, 0), KEY_SLOTS_REMAINING, 0);
      assert r2.Keys == r.Keys;
      forall k | k in r ensures r2[k] == r[k] {
      }
    }
  }

  /** What showRewardedAd reports to its listener straight away. */
  datatype ShowOutcome = AdFailed | Showing

  /**
   * AdManager. `adLoaded` stands for `rewardedAd != null`; `prefs` is the
   * LunarTagAdsPrefs store.
   */
  class AdManager {
    var prefs: Store
    var adLoaded: bool
    var isAdLoading: bool

    /** An ad is never loaded while another load is in flight. */
    predicate Valid()
      reads this
    {
      !(adLoaded && isAdLoading)
    }

    /** The constructor pre-loads an ad. */
    constructor(p: Store)
      ensures prefs == p && !adLoaded && isAdLoading && Valid()
    {
      prefs := p;
      adLoaded := false;
      isAdLoading := false;
      new;
      LoadRewardedAd();
    }

    /** loadRewardedAd: starts a load unless an ad is loaded or a load is in flight. */
    method LoadRewardedAd()
      modifies this
      ensures adLoaded == old(adLoaded) && prefs == old(prefs)
      ensures isAdLoading == (old(isAdLoading) || !old(adLoaded))
      ensures old(Valid()) ==> Valid()
    {
      if adLoaded || isAdLoading {
        return;
      }
      isAdLoading := true;
    }

    /** The load callback onAdLoaded. */
    method OnAdLoaded()
      modifies this
      ensures adLoaded && !isAdLoading && prefs == old(prefs) && Valid()
    {
      adLoaded := true;
      isAdLoading := false;
    }

    /** The load callback onAdFailedToLoad. */
    method OnAdFailedToLoad()
      modifies this
      ensures !adLoaded && !isAdLoading && prefs == old(prefs) && Valid()
    {
      adLoaded := false;
      isAdLoading := false;
    }

    /**
     * showRewardedAd. Without a loaded ad it reports a failure and starts a reload;
     * otherwise the ad is shown. It never changes the tier: only the reward does.
     */
    method ShowRewardedAd() returns (outcome: ShowOutcome)
      modifies this
      ensures outcome == AdFailed <==> !old(adLoaded)
      ensures !old(adLoaded) ==> !adLoaded && isAdLoading
      ensures old(adLoaded) ==> adLoaded == old(adLoaded) && isAdLoading == old(isAdLoading)
      ensures prefs == old(prefs)
      ensures old(Valid()) ==> Valid()
    {
      if !adLoaded {
        LoadRewardedAd();
        return AdFailed;
      }
      return Showing;
    }

    /** The reward callback onUserEarnedReward, on day `today`. */
    method OnUserEarnedReward(today: string)
      modifies this
      ensures prefs == Upgraded(old(prefs), today)
      ensures adLoaded == old(adLoaded) && isAdLoading == old(isAdLoading)
    {
      UpgradeAdLevel(today);
    }

    /** onAdDismissedFullScreenContent: the ad is used up and the next one is loaded. */
    method OnAdDismissed()
      modifies this
      ensures !adLoaded && isAdLoading && prefs == old(prefs) && Valid()
    {
      adLoaded := false;
      LoadRewardedAd();
    }

    /** onAdFailedToShowFullScreenContent: the ad is dropped and the listener is told; no reload. */
    method OnAdFailedToShow() returns (outcome: ShowOutcome)
      modifies this
      ensures outcome == AdFailed
      ensures !adLoaded && isAdLoading == old(isAdLoading) && prefs == old(prefs) && Valid()
    {
      adLoaded := false;
      return AdFailed;
    }

    /** upgradeAdLevel. */
    method UpgradeAdLevel(today: string)
      modifies this
      ensures prefs == Upgraded(old(prefs), today)
      ensures adLoaded == old(adLoaded) && isAdLoading == old(isAdLoading)
    {
      var currentLevel := GetInt(prefs, KEY_AD_LEVEL, 0);
      if currentLevel == 0 {
        prefs := PutInt(prefs, KEY_AD_LEVEL, 1);
        prefs := PutInt(prefs, KEY_SLOTS_REMAINING, 3);
        prefs := PutString(prefs, KEY_LAST_UNLOCK_DATE, today);
      } else if currentLevel == 1 {
        prefs := PutInt(prefs, KEY_AD_LEVEL, 2);
        prefs := PutInt(prefs, KEY_SLOTS_REMAINING, 5);
      } else if currentLevel == 2 {
        prefs := PutInt(prefs, KEY_AD_LEVEL, 3);
      }
    }

    /** checkShiftReset, with the outcome of parsing the shift end and today's date as inputs. */
    method CheckShiftReset(parsed: bool, today: string)
      modifies this
      ensures prefs == ShiftReset(old(prefs), parsed, today)
      ensures adLoaded == old(adLoaded) && isAdLoading == old(isAdLoading)
    {
      if parsed {
        var lastUnlock := GetString(prefs, KEY_LAST_UNLOCK_DATE, "");
        if lastUnlock != today {
          prefs := PutInt(PutInt(prefs, KEY_AD_LEVEL, 0), KEY_SLOTS_REMAINING, 0);
        }
      }
    }

    /** decrementSlot. */
    method DecrementSlot()
      modifies this
      ensures prefs == Decremented(old(prefs))
      ensures adLoaded == old(adLoaded) && isAdLoading == old(isAdLoading)
    {
      var current := GetInt(prefs, KEY_SLOTS_REMAINING, 0);
      if current > 0 {
        prefs := PutInt(prefs, KEY_SLOTS_REMAINING, current - 1);
      }
    }

    method GetAdLevel() returns (level: int)
      ensures level == AdLevel(prefs)
      ensures KEY_AD_LEVEL !in prefs ==> level == 0
    {
      return GetInt(prefs, KEY_AD_LEVEL, 0);
    }

    method GetSlotsRemaining() returns (slots: int)
      ensures slots == SlotsRemaining(prefs)
      ensures KEY_SLOTS_REMAINING !in prefs ==> slots == 0
    {
      return GetInt(prefs, KEY_SLOTS_REMAINING, 0);
    }
  }
}

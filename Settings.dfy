/**
 * SettingsFragment: the shift times picked on a 24-hour clock and shown as "hh:mm AM",
 * the settings form saved to and loaded from LunarTagSettings (and the target app label
 * in LunarTagAccessPrefs), and the admin button guarded by the ad tier.
 */
module Settings {
  import opened Optional
  import opened Text
  import opened Prefs
  import Ads
  import Alarm

  const KEY_COMPANY_NAME := "company_name"
  const KEY_SHIFT_START := "shift_start"
  const KEY_SHIFT_END := "shift_end"
  const KEY_WA_METHOD := "wa_automation_method"
  const KEY_TARGET_APP_LABEL := "target_app_label"

  const METHOD_COORDINATE := "coordinate"
  const METHOD_RED_BOX := "red_box"
  const DEFAULT_SHIFT := "00:00 AM"

  // ------------------------------------------------------------------
  // The time picker
  // ------------------------------------------------------------------

  /** The hour a 12-hour clock shows for `hourOfDay`. */
  function Hour12(hourOfDay: int): (r: int)
    requires 0 <= hourOfDay < 24
    ensures 1 <= r <= 12
    ensures r % 12 == hourOfDay % 12
  {
    if hourOfDay >= 12 then (if hourOfDay == 12 then 12 else hourOfDay - 12)
    else (if hourOfDay == 0 then 12 else hourOfDay)
  }

  /** "PM" from noon on, "AM" before. */
  function AmPm(hourOfDay: int): (r: string)
    ensures r == "PM" <==> hourOfDay >= 12
    ensures r == "AM" || r == "PM"
  {
    if hourOfDay >= 12 then "PM" else "AM"
  }

  predicate IsDigit(c: char) {
    '0' <= c <= '9'
  }

  function Digit(d: int): (c: char)
    requires 0 <= d < 10
    ensures IsDigit(c) && c as int - '0' as int == d
  {
    ('0' as int + d) as char
  }

  function DigitValue(c: char): int
    requires IsDigit(c)
  {
    c as int - '0' as int
  }

  /** `%02d` for a number below 100. */
  function Pad2(n: int): (r: string)
    requires 0 <= n < 100
    ensures |r| == 2 && IsDigit(r[0]) && IsDigit(r[1])
    ensures 10 * DigitValue(r[0]) + DigitValue(r[1]) == n
  {
    [Digit(n / 10), Digit(n % 10)]
  }

  /** The text onTimeSet puts in the shift field: `"%02d:%02d %s"` of the 12-hour clock. */
  function FormatTime(hourOfDay: int, minute: int): (r: string)
    requires 0 <= hourOfDay < 24 && 0 <= minute < 60
    ensures |r| == 8 && r[2] == ':' && r[5] == ' '
    ensures r[..2] == Pad2(Hour12(hourOfDay)) && r[3..5] == Pad2(minute) && r[6..] == AmPm(hourOfDay)
  {
    Pad2(Hour12(hourOfDay)) + ":" + Pad2(minute) + " " + AmPm(hourOfDay)
  }

  /** The 24-hour clock hour of a 12-hour reading. */
  function Hour24(hour12: int, pm: bool): int {
    if pm then (if hour12 == 12 then 12 else hour12 + 12)
    else (if hour12 == 12 then 0 else hour12)
  }

  /** Reads back a text of the form onTimeSet writes, as (hour of day, minute). */
  function ParseTime(s: string): (r: Option<(int, int)>)
    ensures r.Some? ==> 0 <= r.value.0 < 24 && 0 <= r.value.1 < 60
  {
    if |s| == 8 && IsDigit(s[0]) && IsDigit(s[1]) && s[2] == ':' && IsDigit(s[3]) && IsDigit(s[4])
       && s[5] == ' ' && (s[6..] == "AM" || s[6..] == "PM")
    then
      var h := 10 * DigitValue(s[0]) + DigitValue(s[1]);
      var m := 10 * DigitValue(s[3]) + DigitValue(s[4]);
      if 1 <= h <= 12 && m < 60 then Some((Hour24(h, s[6..] == "PM"), m)) else None
    else None
  }

  lemma AmPmShape(hourOfDay: int)
    ensures AmPm(hourOfDay) != "AM" ==> AmPm(hourOfDay) == "PM"
    ensures "AM" != "PM"
  {
    assert "AM"[0] != "PM"[0];
  }

  /** Reading back a formatted time gives the picked time: the picker's text loses nothing. */
  lemma {:induction false} ParseFormatRoundTrip(hourOfDay: int, minute: int)
    requires 0 <= hourOfDay < 24 && 0 <= minute < 60
    ensures ParseTime(FormatTime(hourOfDay, minute)) == Some((hourOfDay, minute))
  {
    var s := FormatTime(hourOfDay, minute);
    AmPmShape(hourOfDay);
    assert s[0] == s[..2][0] && s[1] == s[..2][1];
    assert s[3] == s[3..5][0] && s[4] == s[3..5][1];
    var h := 10 * DigitValue(s[0]) + DigitValue(s[1]);
    assert h == Hour12(hourOfDay);
    assert (s[6..] == "PM") == (hourOfDay >= 12);
  }

  /** Two different picked times never show the same text. */
  lemma FormatTimeInjective(h1: int, m1: int, h2: int, m2: int)
    requires 0 <= h1 < 24 && 0 <= m1 < 60 && 0 <= h2 < 24 && 0 <= m2 < 60
    requires FormatTime(h1, m1) == FormatTime(h2, m2)
    ensures h1 == h2 && m1 == m2
  {
    ParseFormatRoundTrip(h1, m1);
    ParseFormatRoundTrip(h2, m2);
  }

  /** The stored default "00:00 AM" is not a text the picker ever writes: the hour shown is never 00. */
  lemma DefaultShiftIsNotPicked(hourOfDay: int, minute: int)
    requires 0 <= hourOfDay < 24 && 0 <= minute < 60
    ensures FormatTime(hourOfDay, minute) != DEFAULT_SHIFT
  {
    var s := FormatTime(hourOfDay, minute);
    assert s[0] == s[..2][0] && s[1] == s[..2][1];
    assert s[0] != '0' || s[1] != '0';
    assert DEFAULT_SHIFT[0] == '0' && DEFAULT_SHIFT[1] == '0';
  }

  // ------------------------------------------------------------------
  // The settings form
  // ------------------------------------------------------------------

  /** The fields of the settings screen. */
  datatype Form = Form(
    company: string,
    shiftStart: string,
    shiftEnd: string,
    group: string,
    coordinate: bool,     // the "coordinate" radio button is checked
    targetApp: string)

  /** The keys of the two stores are pairwise different (they differ in length). */
  lemma KeysDistinct()
    ensures |KEY_COMPANY_NAME| == 12 && |KEY_SHIFT_START| == 11 && |KEY_SHIFT_END| == 9
    ensures |Alarm.KEY_WHATSAPP_GROUP| == 14 && |KEY_WA_METHOD| == 20 && |KEY_TARGET_APP_LABEL| == 16
  {
  }

  /** What saveSettings writes into the two stores. */
  datatype Saved = Saved(settings: Store, access: Store)

  /** saveSettings: names trimmed, shift texts as they are, the method by the radio button. */
  function SaveSettings(settings: Store, access: Store, f: Form): (r: Saved)
    ensures GetString(r.access, KEY_TARGET_APP_LABEL, "") == Trim(f.targetApp)
  {
    var appLabel := Trim(f.targetApp);
    var written := PutString(access, KEY_TARGET_APP_LABEL, appLabel);
    assert KEY_TARGET_APP_LABEL in written && written[KEY_TARGET_APP_LABEL] == StrV(appLabel);
    Saved(SettingsWritten(settings, f), written)
  }

  /** In LunarTagAccessPrefs, saveSettings writes the target app label and nothing else. */
  lemma SaveKeepsDriverKeys(settings: Store, access: Store, f: Form)
    ensures var r := SaveSettings(settings, access, f);
      r.access.Keys == access.Keys + {KEY_TARGET_APP_LABEL} &&
      forall k :: k in access && k != KEY_TARGET_APP_LABEL ==> r.access[k] == access[k]
  {
    var a := SaveSettings(settings, access, f).access;
    assert a == access[KEY_TARGET_APP_LABEL := StrV(Trim(f.targetApp))];
  }

  /** The LunarTagSettings half of saveSettings, one put per field in the order of the source. */
  function SettingsWritten(settings: Store, f: Form): Store {
    WriteFive(settings, Trim(f.company), f.shiftStart, f.shiftEnd, Trim(f.group), MethodName(f.coordinate))
  }

  /** The five puts of saveSettings into LunarTagSettings, with the values already computed. */
  function WriteFive(p: Store, company: string, start: string, end: string, group: string, waMethod: string): Store {
    var s1 := PutString(p, KEY_COMPANY_NAME, company);
    var s2 := PutString(s1, KEY_SHIFT_START, start);
    var s3 := PutString(s2, KEY_SHIFT_END, end);
    var s4 := PutString(s3, Alarm.KEY_WHATSAPP_GROUP, group);
    PutString(s4, KEY_WA_METHOD, waMethod)
  }

  /** The method the radio buttons select. */
  function MethodName(coordinate: bool): (r: string)
    ensures r == METHOD_COORDINATE <==> coordinate
  {
    if coordinate then METHOD_COORDINATE else METHOD_RED_BOX
  }

  /** Reading a key after the five puts: the put value for the five keys, the old value otherwise. */
  lemma {:induction false} WriteFiveRead(p: Store, company: string, start: string, end: string, group: string, waMethod: string,
                                         key: string, dflt: string)
    ensures GetString(WriteFive(p, company, start, end, group, waMethod), key, dflt) ==
      if key == KEY_WA_METHOD then waMethod
      else if key == Alarm.KEY_WHATSAPP_GROUP then group
      else if key == KEY_SHIFT_END then end
      else if key == KEY_SHIFT_START then start
      else if key == KEY_COMPANY_NAME then company
      else GetString(p, key, dflt)
  {
    var s1 := PutString(p, KEY_COMPANY_NAME, company);
    var s2 := PutString(s1, KEY_SHIFT_START, start);
    var s3 := PutString(s2, KEY_SHIFT_END, end);
    var s4 := PutString(s3, Alarm.KEY_WHATSAPP_GROUP, group);
    GetPutString(s4, KEY_WA_METHOD, waMethod, key, dflt);
    GetPutString(s3, Alarm.KEY_WHATSAPP_GROUP, group, key, dflt);
    GetPutString(s2, KEY_SHIFT_END, end, key, dflt);
    GetPutString(s1, KEY_SHIFT_START, start, key, dflt);
    GetPutString(p, KEY_COMPANY_NAME, company, key, dflt);
  }

  /** A second round of the five puts overwrites every value of the first. */
  lemma {:induction false} WriteFiveOverwrite(p: Store, c1: string, st1: string, e1: string, g1: string, m1: string,
                                              c2: string, st2: string, e2: string, g2: string, m2: string)
    ensures WriteFive(WriteFive(p, c1, st1, e1, g1, m1), c2, st2, e2, g2, m2) == WriteFive(p, c2, st2, e2, g2, m2)
  {
    KeysDistinct();
    var a := WriteFive(WriteFive(p, c1, st1, e1, g1, m1), c2, st2, e2, g2, m2);
    var b := WriteFive(p, c2, st2, e2, g2, m2);
    assert a.Keys == b.Keys;
    forall k | k in a ensures a[k] == b[k] {
    }
  }

  /**
   * saveSettings writes "coordinate" exactly when the coordinate radio button is
   * checked, the company name and the group trimmed, and the shift texts as they are.
   */
  lemma SaveWritesForm(settings: Store, access: Store, f: Form)
    ensures var r := SaveSettings(settings, access, f);
      && (GetString(r.settings, KEY_WA_METHOD, METHOD_RED_BOX) == METHOD_COORDINATE <==> f.coordinate)
      && GetString(r.settings, KEY_COMPANY_NAME, "") == Trim(f.company)
      && GetString(r.settings, Alarm.KEY_WHATSAPP_GROUP, "") == Trim(f.group)
      && GetString(r.settings, KEY_SHIFT_START, DEFAULT_SHIFT) == f.shiftStart
      && GetString(r.settings, KEY_SHIFT_END, DEFAULT_SHIFT) == f.shiftEnd
  {
    var c, st, e, g, m := Trim(f.company), f.shiftStart, f.shiftEnd, Trim(f.group), MethodName(f.coordinate);
    KeysDistinct();
    WriteFiveRead(settings, c, st, e, g, m, KEY_WA_METHOD, METHOD_RED_BOX);
    WriteFiveRead(settings, c, st, e, g, m, KEY_COMPANY_NAME, "");
    WriteFiveRead(settings, c, st, e, g, m, Alarm.KEY_WHATSAPP_GROUP, "");
    WriteFiveRead(settings, c, st, e, g, m, KEY_SHIFT_START, DEFAULT_SHIFT);
    WriteFiveRead(settings, c, st, e, g, m, KEY_SHIFT_END, DEFAULT_SHIFT);
  }

  /** loadSettings: what the screen shows for the stored values, with their defaults. */
  function LoadSettings(settings: Store, access: Store): (f: Form)
    ensures settings == map[] && access == map[] ==>
      f == Form("", DEFAULT_SHIFT, DEFAULT_SHIFT, "", false, "")
  {
    Form(
      GetString(settings, KEY_COMPANY_NAME, ""),
      GetString(settings, KEY_SHIFT_START, DEFAULT_SHIFT),
      GetString(settings, KEY_SHIFT_END, DEFAULT_SHIFT),
      GetString(settings, Alarm.KEY_WHATSAPP_GROUP, ""),
      GetString(settings, KEY_WA_METHOD, METHOD_RED_BOX) == METHOD_COORDINATE,
      GetString(access, KEY_TARGET_APP_LABEL, ""))
  }

  /** The form as saving normalises it. */
  function Normalised(f: Form): Form {
    f.(company := Trim(f.company), group := Trim(f.group), targetApp := Trim(f.targetApp))
  }

  /** Loading what was just saved shows the form back, with the three names trimmed. */
  lemma LoadAfterSave(settings: Store, access: Store, f: Form)
    ensures var r := SaveSettings(settings, access, f);
      LoadSettings(r.settings, r.access) == Normalised(f)
  {
    SaveWritesForm(settings, access, f);
  }

  /** Saving a form whose names are already trimmed writes the same as saving the form itself. */
  lemma SaveNormalisedSame(settings: Store, access: Store, f: Form)
    ensures SaveSettings(settings, access, Normalised(f)) == SaveSettings(settings, access, f)
  {
    var n := Normalised(f);
    TrimIdempotent(n.company);
    TrimIdempotent(n.group);
    TrimIdempotent(n.targetApp);
    assert SettingsWritten(settings, n) == SettingsWritten(settings, f);
    assert Trim(n.targetApp) == Trim(f.targetApp);
  }

  /** Saving the same form twice leaves both stores as the first save left them. */
  lemma SaveTwiceSame(settings: Store, access: Store, f: Form)
    ensures var r := SaveSettings(settings, access, f);
      SaveSettings(r.settings, r.access, f) == r
  {
    var c, st, e, g, m := Trim(f.company), f.shiftStart, f.shiftEnd, Trim(f.group), MethodName(f.coordinate);
    WriteFiveOverwrite(settings, c, st, e, g, m, c, st, e, g, m);
    var t := StrV(Trim(f.targetApp));
    assert access[KEY_TARGET_APP_LABEL := t][KEY_TARGET_APP_LABEL := t] == access[KEY_TARGET_APP_LABEL := t];
  }

  /** Saving the screen straight after loading it changes nothing more: save is idempotent. */
  lemma SaveIdempotent(settings: Store, access: Store, f: Form)
    ensures var r := SaveSettings(settings, access, f);
      var again := SaveSettings(r.settings, r.access, LoadSettings(r.settings, r.access));
      again == r
  {
    var r := SaveSettings(settings, access, f);
    LoadAfterSave(settings, access, f);
    SaveNormalisedSame(r.settings, r.access, f);
    SaveTwiceSame(settings, access, f);
  }

  /** The group the scheduler arms the driver with is the saved group, trimmed. */
  lemma SavedGroupIsHandedOff(settings: Store, access: Store, f: Form)
    ensures Alarm.ConfiguredGroup(SaveSettings(settings, access, f).settings) == Trim(f.group)
  {
    SaveWritesForm(settings, access, f);
  }

  // ------------------------------------------------------------------
  // The admin button
  // ------------------------------------------------------------------

  /** What a press of the admin button leads to. */
  datatype AdminOutcome =
    | OpenedEditor    // navigated to the schedule editor
    | AdRequested(shown: Ads.ShowOutcome)

  /**
   * After the shift check, a press opens the editor exactly when the level is above 0;
   * a locked user who then earns the reward is unlocked, and a second press on the same
   * day opens the editor.
   */
  lemma RewardUnlocksEditor(p: Store, parsed: bool, parsedAgain: bool, today: string)
    ensures var checked := Ads.ShiftReset(p, parsed, today);
      Ads.AdLevel(checked) == 0 ==>
        var rewarded := Ads.Upgraded(checked, today);
        Ads.AdLevel(rewarded) == 1 && Ads.AdLevel(Ads.ShiftReset(rewarded, parsedAgain, today)) > 0
  {
    var checked := Ads.ShiftReset(p, parsed, today);
    if Ads.AdLevel(checked) == 0 {
      Ads.SameDayUnlockSurvives(checked, today, parsedAgain);
    }
  }

  /** SettingsFragment, with the two stores it reads and writes and the fields of its screen. */
  class SettingsScreen {
    var settingsPrefs: Store
    var accessPrefs: Store
    var form: Form

    /** onViewCreated: the screen starts out showing the stored settings. */
    constructor(settings: Store, access: Store)
      ensures settingsPrefs == settings && accessPrefs == access
      ensures form == LoadSettings(settings, access)
    {
      settingsPrefs := settings;
      accessPrefs := access;
      form := LoadSettings(settings, access);
    }

    method Load()
      modifies this
      ensures form == LoadSettings(settingsPrefs, accessPrefs)
      ensures settingsPrefs == old(settingsPrefs) && accessPrefs == old(accessPrefs)
    {
      var companyName := GetString(settingsPrefs, KEY_COMPANY_NAME, "");
      var shiftStart := GetString(settingsPrefs, KEY_SHIFT_START, DEFAULT_SHIFT);
      var shiftEnd := GetString(settingsPrefs, KEY_SHIFT_END, DEFAULT_SHIFT);
      var whatsappGroup := GetString(settingsPrefs, Alarm.KEY_WHATSAPP_GROUP, "");
      var waMethod := GetString(settingsPrefs, KEY_WA_METHOD, METHOD_RED_BOX);
      var targetApp := GetString(accessPrefs, KEY_TARGET_APP_LABEL, "");
      form := Form(companyName, shiftStart, shiftEnd, whatsappGroup, waMethod == METHOD_COORDINATE, targetApp);
    }

    method Save()
      modifies this
      ensures Saved(settingsPrefs, accessPrefs) == SaveSettings(old(settingsPrefs), old(accessPrefs), old(form))
      ensures form == old(form)
    {
      var r := SaveSettings(settingsPrefs, accessPrefs, form);
      settingsPrefs := r.settings;
      accessPrefs := r.access;
    }

    /** onTimeSet: the picked time goes into the start or the end field. */
    method OnTimeSet(isStartTime: bool, hourOfDay: int, minute: int)
      requires 0 <= hourOfDay < 24 && 0 <= minute < 60
      modifies this
      ensures form == if isStartTime then old(form).(shiftStart := FormatTime(hourOfDay, minute))
                      else old(form).(shiftEnd := FormatTime(hourOfDay, minute))
      ensures settingsPrefs == old(settingsPrefs) && accessPrefs == old(accessPrefs)
    {
      var timeString := FormatTime(hourOfDay, minute);
      if isStartTime {
        form := form.(shiftStart := timeString);
      } else {
        form := form.(shiftEnd := timeString);
      }
    }

    /**
     * The admin button: check the shift first, then open the editor when unlocked, and
     * ask for an ad otherwise. `parsed` is whether the stored shift end parses.
     */
    method OnAdminClick(ads: Ads.AdManager, parsed: bool, today: string) returns (outcome: AdminOutcome)
      modifies ads
      ensures ads.prefs == Ads.ShiftReset(old(ads.prefs), parsed, today)
      ensures outcome == OpenedEditor <==> Ads.AdLevel(ads.prefs) > 0
      ensures outcome.AdRequested? ==> (outcome.shown == Ads.AdFailed <==> !old(ads.adLoaded))
      ensures outcome == OpenedEditor || old(ads.adLoaded) ==>
        ads.adLoaded == old(ads.adLoaded) && ads.isAdLoading == old(ads.isAdLoading)
      ensures outcome.AdRequested? && !old(ads.adLoaded) ==> !ads.adLoaded && ads.isAdLoading
      ensures old(ads.Valid()) ==> ads.Valid()
    {
      ads.CheckShiftReset(parsed, today);
      var level := ads.GetAdLevel();
      if level > 0 {
        return OpenedEditor;
      }
      var shown := ads.ShowRewardedAd();
      return AdRequested(shown);
    }
  }
}

/**
 * AlarmReceiver: the scheduler's hand-off to the accessibility driver. When an alarm
 * fires for a photo, the receiver checks that the photo can be shared, arms the driver
 * by writing the target group and job_is_pending into LunarTagAccessPrefs, and then
 * either launches WhatsApp directly ("full" mode) or posts a notification ("semi").
 */
module Alarm {
  import opened Optional
  import opened Text
  import opened Prefs
  import opened Driver

  /** The key of the configured group in the LunarTagSettings store. */
  const KEY_WHATSAPP_GROUP := "whatsapp_group"
  const CONTENT_SCHEME := "content://"
  /** The notification id used when the direct launch fails. */
  const FALLBACK_NOTIFICATION_ID := 999
  const TWO_32 := 0x1_0000_0000

  /** What the receiver ends up doing after arming. */
  datatype Dispatch =
    | Ignored          // returned early; nothing was armed or shown
    | Launched         // WhatsApp was started directly
    | Notified(id: int) // a notification was posted under this id

  datatype Receipt = Receipt(access: Store, dispatch: Dispatch)

  /** Java's `(int)` cast of a long: the low 32 bits read as a two's-complement number. */
  function IntCast(x: int): (r: int)
    ensures -0x8000_0000 <= r < 0x8000_0000
    ensures (x - r) % TWO_32 == 0
    ensures -0x8000_0000 <= x < 0x8000_0000 ==> r == x
  {
    var m := x % TWO_32;
    if m >= 0x8000_0000 then m - TWO_32 else m
  }

  /** The group the scheduler hands over, from the settings store. */
  function ConfiguredGroup(settings: Store): string {
    GetString(settings, KEY_WHATSAPP_GROUP, "")
  }

  /** armAccessibilityService: write the group and raise job_is_pending, unless no group is set. */
  function Armed(settings: Store, access: Store): (r: Store)
    ensures ConfiguredGroup(settings) == "" ==> r == access
    ensures ConfiguredGroup(settings) != "" ==>
      JobPending(r) && GetString(r, KEY_TARGET_GROUP, "") == ConfiguredGroup(settings)
    ensures forall k :: k in access && k != KEY_TARGET_GROUP && k != KEY_JOB_PENDING ==> k in r && r[k] == access[k]
    ensures forall k :: k in r && k != KEY_TARGET_GROUP && k != KEY_JOB_PENDING ==> k in access
  {
    var groupName := ConfiguredGroup(settings);
    if groupName != "" then
      PutBool(PutString(access, KEY_TARGET_GROUP, groupName), KEY_JOB_PENDING, true)
    else
      access
  }

  /**
   * onReceive. `filePath` and `photoId` are the intent extras, `now` the clock used when
   * the id is missing, `fileExists` whether a plain path names an existing file,
   * `providerOk` whether FileProvider produced a URI for it, and `launchOk` whether
   * starting WhatsApp directly succeeded.
   */
  function OnReceive(filePath: Option<string>, photoId: Option<int>, now: int, fileExists: bool,
                     providerOk: bool, launchOk: bool, settings: Store, access: Store): (r: Receipt)
    ensures r.dispatch.Ignored? <==>
      || filePath.None? || filePath.value == ""
      || (!StartsWith(filePath.value, CONTENT_SCHEME) && !(fileExists && providerOk))
    ensures r.dispatch.Ignored? ==> r.access == access
    ensures !r.dispatch.Ignored? ==> r.access == Armed(settings, access)
  {
    if filePath.None? || filePath.value == "" then
      Receipt(access, Ignored)
    else if !StartsWith(filePath.value, CONTENT_SCHEME) && !fileExists then
      Receipt(access, Ignored)
    else if !StartsWith(filePath.value, CONTENT_SCHEME) && !providerOk then
      Receipt(access, Ignored)
    else
      var armed := Armed(settings, access);
      var mode := GetString(armed, KEY_AUTO_MODE, "semi");
      var id := if photoId.Some? then photoId.value else now;
      if mode == "full" then
        Receipt(armed, if launchOk then Launched else Notified(FALLBACK_NOTIFICATION_ID))
      else
        Receipt(armed, Notified(IntCast(id)))
  }

  /** A delivery the receiver accepts: a non-empty path that is a content URI or an existing, shareable file. */
  predicate Deliverable(filePath: Option<string>, fileExists: bool, providerOk: bool) {
    filePath.Some? && filePath.value != "" &&
    (StartsWith(filePath.value, CONTENT_SCHEME) || (fileExists && providerOk))
  }

  /** A null or empty path, or a missing plain file, arms nothing and shows nothing. */
  lemma RejectedDeliveryIsNoOp(filePath: Option<string>, photoId: Option<int>, now: int, fileExists: bool,
                               providerOk: bool, launchOk: bool, settings: Store, access: Store)
    requires !Deliverable(filePath, fileExists, providerOk)
    ensures OnReceive(filePath, photoId, now, fileExists, providerOk, launchOk, settings, access) == Receipt(access, Ignored)
  {
  }

  /**
   * The receiver is the writer that raises job_is_pending: after it the flag is set only
   * if it was set before or a group was configured and the delivery was accepted.
   */
  lemma JobArmedOnlyWithGroup(filePath: Option<string>, photoId: Option<int>, now: int, fileExists: bool,
                              providerOk: bool, launchOk: bool, settings: Store, access: Store)
    ensures var r := OnReceive(filePath, photoId, now, fileExists, providerOk, launchOk, settings, access);
      JobPending(r.access) <==>
        JobPending(access) || (Deliverable(filePath, fileExists, providerOk) && ConfiguredGroup(settings) != "")
  {
  }

  /**
   * The hand-off: an accepted delivery with a configured group leaves the driver a pending
   * job for exactly that group, whichever way it is dispatched.
   */
  lemma HandOffArmsDriver(filePath: Option<string>, photoId: Option<int>, now: int, fileExists: bool,
                          providerOk: bool, launchOk: bool, settings: Store, access: Store)
    requires Deliverable(filePath, fileExists, providerOk) && ConfiguredGroup(settings) != ""
    ensures var r := OnReceive(filePath, photoId, now, fileExists, providerOk, launchOk, settings, access);
      && !r.dispatch.Ignored?
      && JobPending(r.access)
      && GetString(r.access, KEY_TARGET_GROUP, "") == ConfiguredGroup(settings)
      && GetString(r.access, KEY_AUTO_MODE, "semi") == GetString(access, KEY_AUTO_MODE, "semi")
      && ForceReset(r.access) == ForceReset(access)
  {
    var r := OnReceive(filePath, photoId, now, fileExists, providerOk, launchOk, settings, access);
    assert r.access == Armed(settings, access);
  }

  /**
   * The dispatch follows the mode stored before the alarm (arming never writes it):
   * "full" launches directly, falling back to notification 999; any other mode posts
   * a notification under the photo id cast to int, or the clock when no id was sent.
   */
  lemma DispatchFollowsMode(filePath: Option<string>, photoId: Option<int>, now: int, fileExists: bool,
                            providerOk: bool, launchOk: bool, settings: Store, access: Store)
    requires Deliverable(filePath, fileExists, providerOk)
    ensures var r := OnReceive(filePath, photoId, now, fileExists, providerOk, launchOk, settings, access);
      var id := if photoId.Some? then photoId.value else now;
      && (GetString(access, KEY_AUTO_MODE, "semi") == "full" ==>
            r.dispatch == if launchOk then Launched else Notified(FALLBACK_NOTIFICATION_ID))
      && (GetString(access, KEY_AUTO_MODE, "semi") != "full" ==> r.dispatch == Notified(IntCast(id)))
  {
    var armed := Armed(settings, access);
    assert GetString(armed, KEY_AUTO_MODE, "semi") == GetString(access, KEY_AUTO_MODE, "semi");
  }

  /** WhatsApp is launched directly only in "full" mode, and only when the launch succeeded. */
  lemma LaunchOnlyInFullMode(filePath: Option<string>, photoId: Option<int>, now: int, fileExists: bool,
                             providerOk: bool, launchOk: bool, settings: Store, access: Store)
    ensures OnReceive(filePath, photoId, now, fileExists, providerOk, launchOk, settings, access).dispatch == Launched ==>
      launchOk && GetString(access, KEY_AUTO_MODE, "semi") == "full"
  {
    if Deliverable(filePath, fileExists, providerOk) {
      DispatchFollowsMode(filePath, photoId, now, fileExists, providerOk, launchOk, settings, access);
    }
  }

  /** Photo ids 2^32 apart get the same notification id, so the later one replaces the earlier. */
  lemma NotificationIdsWrap(id: int)
    ensures IntCast(id) == IntCast(id + TWO_32)
  {
    assert (id + TWO_32) % TWO_32 == id % TWO_32;
  }

  /** Photo ids inside the int range keep their value as notification ids. */
  lemma SmallIdsAreKept(id: int)
    requires 0 <= id < 0x8000_0000
    ensures IntCast(id) == id
  {
  }
}

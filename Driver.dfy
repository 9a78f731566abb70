/**
 * The WhatsApp automation driver of LunarTagAccessibilityService, as a state machine.
 *
 * One accessibility event is one step (`AfterEvent`); each callback the service posts
 * with Handler.postDelayed is a `Deferred` entry that the environment fires later, in
 * any order (`AfterFire`). The platform's indexed lookups are given with the event as
 * lists of node indices, and what the service does to the screen is recorded as
 * `Action`s.
 */
module Driver {
  import opened Optional
  import opened Text
  import opened Prefs
  import opened UiTree
  import opened NodeSearch

  // The keys of the LunarTagAccessPrefs store.
  const KEY_AUTO_MODE := "automation_mode"
  const KEY_TARGET_GROUP := "target_group_name"
  const KEY_ICON_X := "share_icon_x"
  const KEY_ICON_Y := "share_icon_y"
  const KEY_JOB_PENDING := "job_is_pending"
  const KEY_FORCE_RESET := "force_reset_logic"

  // The view ids of WhatsApp's send buttons, in the order they are tried.
  const SEND_ARROW_ID := "com.whatsapp:id/conversation_send_arrow"
  const SEND_ID := "com.whatsapp:id/send"
  const FAB_ID := "com.whatsapp:id/fab"

  /** Two "Robot Searching" toasts are at least this many milliseconds apart. */
  const TOAST_INTERVAL := 3000

  /** The only value the service's state field ever takes. */
  const STATE_IDLE := 0

  /** A callback posted with Handler.postDelayed and not yet run. */
  datatype Deferred =
    | SettleNodeClick(snap: Snapshot, node: nat) // executeVisualClick, after 500 ms
    | SettleTap(x: int, y: int)                  // the share-sheet tap, after 500 ms
    | ScrollCooldown                             // performScroll, after 800 ms

  /** What the service does to the screen. */
  datatype Action =
    | Click(snap: Snapshot, node: nat)         // ACTION_CLICK on a node
    | Tap(x: int, y: int)                      // a dispatched tap gesture
    | ScrollForward(snap: Snapshot, node: nat) // ACTION_SCROLL_FORWARD on a node

  /**
   * The answers of findAccessibilityNodeInfosByText and ByViewId for this screen, by
   * query; a query that is not a key gets an empty (or null) answer.
   */
  datatype Lookups = Lookups(byText: map<string, seq<nat>>, byViewId: map<string, seq<nat>>)

  /**
   * One accessibility event: its package name (None for a null event or package), the
   * root of the active window (None when there is none), the clock and the lookups.
   */
  datatype Event = Event(pkg: Option<string>, root: Option<Snapshot>, now: int, lookups: Lookups)

  /** The fields of the service and its store, with the pending callbacks and the actions so far. */
  datatype DriverState = DriverState(
    clicking: bool,         // isClickingPending
    scrolling: bool,        // isScrolling
    shareClicked: bool,     // shareSheetClicked
    lastToast: int,         // lastToastTime
    prefs: Store,           // LunarTagAccessPrefs
    deferred: seq<Deferred>,
    actions: seq<Action>)

  function Lookup(m: map<string, seq<nat>>, key: string): seq<nat> {
    if key in m then m[key] else []
  }

  predicate LookupsOk(lk: Lookups, n: nat) {
    && (forall q :: q in lk.byText ==> AllBelow(lk.byText[q], n))
    && (forall q :: q in lk.byViewId ==> AllBelow(lk.byViewId[q], n))
  }

  /** A root is a non-empty well-formed snapshot whose lookups name its nodes. */
  predicate EventOk(ev: Event) {
    ev.root.Some? ==> WellFormed(ev.root.value) && |ev.root.value| > 0 && LookupsOk(ev.lookups, |ev.root.value|)
  }

  predicate DeferredOk(d: Deferred) {
    d.SettleNodeClick? ==> WellFormed(d.snap) && d.node < |d.snap|
  }

  /** Every pending callback refers to a node of its own snapshot. */
  predicate Ready(st: DriverState) {
    forall i :: 0 <= i < |st.deferred| ==> DeferredOk(st.deferred[i])
  }

  /** The number of pending callbacks that end in a click (`click`) or a scroll cooldown (`!click`). */
  function Pending(ds: seq<Deferred>, click: bool): nat {
    if ds == [] then 0
    else (if ds[0].ScrollCooldown? != click then 1 else 0) + Pending(ds[1..], click)
  }

  /**
   * At most one click is in flight, and one is exactly while isClickingPending is set;
   * a scroll cooldown is pending exactly while isScrolling is set.
   */
  predicate ClickExclusive(st: DriverState) {
    Pending(st.deferred, true) == (if st.clicking then 1 else 0)
  }

  predicate ScrollExclusive(st: DriverState) {
    Pending(st.deferred, false) == (if st.scrolling then 1 else 0)
  }

  /** The packages the service acts on; every other package is ignored. */
  predicate IsSafePackage(pkg: string) {
    Contains(pkg, "whatsapp") || pkg == "android" || Contains(pkg, "chooser") || Contains(pkg, "systemui")
  }

  predicate JobPending(p: Store) {
    GetBool(p, KEY_JOB_PENDING, false)
  }

  predicate ForceReset(p: Store) {
    GetBool(p, KEY_FORCE_RESET, false)
  }

  // ------------------------------------------------------------------
  // One event
  // ------------------------------------------------------------------

  /** executeVisualClick: unless a click is pending, mark one pending and post its settle callback. */
  function AfterVisualClick(st: DriverState, root: Snapshot, node: nat): (r: DriverState)
    ensures !st.clicking ==> r == st.(clicking := true, deferred := st.deferred + [SettleNodeClick(root, node)])
    ensures st.clicking ==> r == st
  {
    if st.clicking then st
    else st.(clicking := true, deferred := st.deferred + [SettleNodeClick(root, node)])
  }

  /** performScroll: unless scrolling, scroll the first scrollable node forward and post the cooldown. */
  function AfterScroll(st: DriverState, root: Snapshot): (r: DriverState)
    requires WellFormed(root) && |root| > 0
    ensures r.clicking == st.clicking && r.shareClicked == st.shareClicked && r.prefs == st.prefs
    ensures !st.scrolling && FindScrollable(root, 0).Some? ==>
      r.scrolling && r.actions == st.actions + [ScrollForward(root, FindScrollable(root, 0).value)]
      && root[FindScrollable(root, 0).value].scrollable && r.deferred == st.deferred + [ScrollCooldown]
    ensures st.scrolling || FindScrollable(root, 0).None? ==> r == st
  {
    if st.scrolling then st
    else match FindScrollable(root, 0)
      case None => st
      case Some(n) =>
        st.(scrolling := true, actions := st.actions + [ScrollForward(root, n)], deferred := st.deferred + [ScrollCooldown])
  }

  /** The cleaned form of "Cancel", the label of the share sheet's cancel button. */
  const CANCEL_QUERY := "cancel"

  /** hasText(root, "Cancel"): the share sheet's cancel button is on screen. */
  predicate CancelShown(root: Snapshot, lk: Lookups)
    requires WellFormed(root) && |root| > 0
  {
    |Lookup(lk.byText, CANCEL_QUERY)| > 0 || RecursiveCheckText(root, 0, CANCEL_QUERY)
  }

  /** The share-sheet test is hasText(root, "Cancel"). */
  lemma CancelShownIsHasText(root: Snapshot, lk: Lookups)
    requires WellFormed(root) && |root| > 0
    ensures CancelShown(root, lk) == HasText(root, "Cancel", Lookup(lk.byText, CleanString(Some("Cancel"))))
  {
    var l := Lower("Cancel");
    assert l[0] == 'c' && l[1] == 'a' && l[2] == 'n' && l[3] == 'c' && l[4] == 'e' && l[5] == 'l';
    CleanStringOfWord("Cancel", CANCEL_QUERY);
  }

  predicate IsShareSheet(pkg: string, root: Snapshot, lk: Lookups)
    requires WellFormed(root) && |root| > 0
  {
    CancelShown(root, lk) || pkg == "android" || Contains(pkg, "chooser")
  }

  /** The share-sheet branch: one coordinate tap per sheet while a job is pending. */
  function SharePhase(st: DriverState): DriverState {
    var x := GetInt(st.prefs, KEY_ICON_X, 0);
    var y := GetInt(st.prefs, KEY_ICON_Y, 0);
    if JobPending(st.prefs) && !st.shareClicked && x > 0 && y > 0 then
      st.(shareClicked := true, clicking := true, deferred := st.deferred + [SettleTap(x, y)])
    else st
  }

  /**
   * The send button the WhatsApp branch clicks: the first node found by view id for
   * the send arrow, the send button or the floating button, in that order, else the
   * node whose content description contains "send".
   */
  function SendTarget(root: Snapshot, lk: Lookups): (r: Option<nat>)
    requires WellFormed(root) && |root| > 0 && LookupsOk(lk, |root|)
    ensures r.Some? ==> r.value < |root|
  {
    var arrow := Lookup(lk.byViewId, SEND_ARROW_ID);
    var send := Lookup(lk.byViewId, SEND_ID);
    var fab := Lookup(lk.byViewId, FAB_ID);
    if |arrow| > 0 then Some(arrow[0])
    else if |send| > 0 then Some(send[0])
    else if |fab| > 0 then Some(fab[0])
    else DescriptionClickTarget(root, 0, "Send")
  }

  /** The group search: click the group's row, else scroll when not already scrolling. */
  function GroupPhase(st: DriverState, root: Snapshot, group: string, lk: Lookups): DriverState
    requires WellFormed(root) && |root| > 0 && LookupsOk(lk, |root|)
  {
    if group == "" then st
    else match MarkerClickTarget(root, group, Lookup(lk.byText, group))
      case Some(t) => AfterVisualClick(st, root, t)
      case None => if !st.scrolling then AfterScroll(st, root) else st
  }

  /** The WhatsApp branch: nothing unless a job is pending; then the send button, else the group. */
  function WhatsAppPhase(st: DriverState, root: Snapshot, group: string, now: int, lk: Lookups): DriverState
    requires WellFormed(root) && |root| > 0 && LookupsOk(lk, |root|)
  {
    if !JobPending(st.prefs) then st
    else match SendTarget(root, lk)
      case Some(t) => AfterVisualClick(st, root, t).(prefs := PutBool(st.prefs, KEY_JOB_PENDING, false))
      case None =>
        var st' := if now - st.lastToast > TOAST_INTERVAL then st.(lastToast := now) else st;
        GroupPhase(st', root, group, lk)
  }

  /** What follows the root and pending-click checks, for the lower-cased package `pkg`. */
  function AfterScreen(st: DriverState, pkg: string, mode: string, group: string, root: Snapshot, now: int, lk: Lookups): DriverState
    requires WellFormed(root) && |root| > 0 && LookupsOk(lk, |root|)
  {
    var share := IsShareSheet(pkg, root, lk);
    var st' := if !share then st.(shareClicked := false) else st;
    if mode == "full" && share && !Contains(pkg, "whatsapp") then SharePhase(st')
    else if Contains(pkg, "whatsapp") then WhatsAppPhase(st', root, group, now, lk)
    else st'
  }

  /** The force-reset wipe: clear the pending click and the flag. */
  function AfterWipe(st: DriverState): DriverState {
    if ForceReset(st.prefs) then st.(clicking := false, prefs := PutBool(st.prefs, KEY_FORCE_RESET, false))
    else st
  }

  /** onAccessibilityEvent. */
  function AfterEvent(st: DriverState, ev: Event): DriverState
    requires EventOk(ev)
  {
    if ev.pkg.None? then st
    else
      var pkg := Lower(ev.pkg.value);
      if !IsSafePackage(pkg) then st
      else
        var mode := GetString(st.prefs, KEY_AUTO_MODE, "semi");
        var group := GetString(st.prefs, KEY_TARGET_GROUP, "");
        var st' := AfterWipe(st);
        if ev.root.None? || st'.clicking then st'
        else AfterScreen(st', pkg, mode, group, ev.root.value, ev.now, ev.lookups)
  }

  /** Runs the callback at position `k` of the pending ones. */
  function AfterFire(st: DriverState, k: nat): DriverState
    requires Ready(st) && k < |st.deferred|
  {
    var rest := st.deferred[..k] + st.deferred[k + 1..];
    match st.deferred[k]
    case SettleNodeClick(snap, node) =>
      assert DeferredOk(st.deferred[k]);
      var t := BoundedClimb(snap, node, MAX_CLICK_CLIMB);
      st.(clicking := false, deferred := rest, actions := st.actions + if t.Some? then [Click(snap, t.value)] else [])
    case SettleTap(x, y) =>
      st.(clicking := false, deferred := rest, actions := st.actions + [Tap(x, y)])
    case ScrollCooldown =>
      st.(scrolling := false, deferred := rest)
  }

  /** A run of events with no callback fired in between. */
  function Run(st: DriverState, evs: seq<Event>): DriverState
    requires forall i :: 0 <= i < |evs| ==> EventOk(evs[i])
    decreases |evs|
  {
    if evs == [] then st else Run(AfterEvent(st, evs[0]), evs[1..])
  }

  /** The type performBroadcastLog attaches to a message. */
  function LogTypeOf(msg: Option<string>): (r: string)
    ensures r == "error" || r == "info"
  {
    if msg.Some? && (Contains(Lower(msg.value), "error") || Contains(Lower(msg.value), "fail") || Contains(Lower(msg.value), "missing"))
    then "error" else "info"
  }

  // ------------------------------------------------------------------
  // Properties of one event
  // ------------------------------------------------------------------

  /** An event without a package, or from a package outside the whitelist, changes nothing. */
  lemma IgnoredPackageIsNoOp(st: DriverState, ev: Event)
    requires EventOk(ev)
    requires ev.pkg.None? || !IsSafePackage(Lower(ev.pkg.value))
    ensures AfterEvent(st, ev) == st
  {
  }

  /**
   * A pending force reset is consumed by every whitelisted event, even one without a
   * root: the flag is written back false and no click is pending afterwards in that case.
   */
  lemma ForceResetIsConsumed(st: DriverState, ev: Event)
    requires EventOk(ev) && ev.pkg.Some? && IsSafePackage(Lower(ev.pkg.value))
    requires ForceReset(st.prefs)
    ensures !ForceReset(AfterEvent(st, ev).prefs)
    ensures ev.root.None? ==>
      AfterEvent(st, ev) == st.(clicking := false, prefs := PutBool(st.prefs, KEY_FORCE_RESET, false))
  {
    var st' := AfterWipe(st);
    if ev.root.Some? {
      var root, pkg := ev.root.value, Lower(ev.pkg.value);
      var mode := GetString(st.prefs, KEY_AUTO_MODE, "semi");
      var group := GetString(st.prefs, KEY_TARGET_GROUP, "");
      AfterScreenKeepsForceFlag(st', pkg, mode, group, root, ev.now, ev.lookups);
    }
  }

  /** The group search writes no store key and leaves the share-sheet flag and the toast clock alone. */
  lemma GroupPhaseFrame(st: DriverState, root: Snapshot, group: string, lk: Lookups)
    requires WellFormed(root) && |root| > 0 && LookupsOk(lk, |root|)
    ensures GroupPhase(st, root, group, lk).prefs == st.prefs
    ensures GroupPhase(st, root, group, lk).shareClicked == st.shareClicked
    ensures GroupPhase(st, root, group, lk).lastToast == st.lastToast
  {
    var r := GroupPhase(st, root, group, lk);
    if group != "" {
      var hits := Lookup(lk.byText, group);
      var m := MarkerClickTarget(root, group, hits);
      if m.Some? {
        assert r == AfterVisualClick(st, root, m.value);
      } else if !st.scrolling {
        assert r == AfterScroll(st, root);
      } else {
        assert r == st;
      }
    }
  }

  /** The WhatsApp branch writes no store key but job_is_pending, and that one only to false. */
  lemma WhatsAppPhaseFrame(st: DriverState, root: Snapshot, group: string, now: int, lk: Lookups)
    requires WellFormed(root) && |root| > 0 && LookupsOk(lk, |root|)
    ensures var r := WhatsAppPhase(st, root, group, now, lk);
      && r.shareClicked == st.shareClicked
      && (r.prefs == st.prefs || r.prefs == PutBool(st.prefs, KEY_JOB_PENDING, false))
  {
    if JobPending(st.prefs) && SendTarget(root, lk).None? {
      var st' := if now - st.lastToast > TOAST_INTERVAL then st.(lastToast := now) else st;
      GroupPhaseFrame(st', root, group, lk);
    }
  }

  /** What follows the checks writes no store key but job_is_pending, and that one only to false. */
  lemma AfterScreenKeepsForceFlag(st: DriverState, pkg: string, mode: string, group: string, root: Snapshot, now: int, lk: Lookups)
    requires WellFormed(root) && |root| > 0 && LookupsOk(lk, |root|)
    ensures var r := AfterScreen(st, pkg, mode, group, root, now, lk);
      r.prefs == st.prefs || r.prefs == PutBool(st.prefs, KEY_JOB_PENDING, false)
  {
    var share := IsShareSheet(pkg, root, lk);
    var st' := if !share then st.(shareClicked := false) else st;
    assert st'.prefs == st.prefs;
    if mode == "full" && share && !Contains(pkg, "whatsapp") {
      assert SharePhase(st').prefs == st.prefs;
    } else if Contains(pkg, "whatsapp") {
      WhatsAppPhaseFrame(st', root, group, now, lk);
    }
  }

  /** While a click is pending and no reset is requested, events change nothing. */
  lemma PendingClickBlocksEvent(st: DriverState, ev: Event)
    requires EventOk(ev) && st.clicking && !ForceReset(st.prefs)
    ensures AfterEvent(st, ev) == st
  {
  }

  /** ... and so any number of events in a row change nothing until a callback fires. */
  lemma {:induction false} PendingClickBlocksRun(st: DriverState, evs: seq<Event>)
    requires forall i :: 0 <= i < |evs| ==> EventOk(evs[i])
    requires st.clicking && !ForceReset(st.prefs)
    ensures Run(st, evs) == st
    decreases |evs|
  {
    if evs != [] {
      PendingClickBlocksEvent(st, evs[0]);
      PendingClickBlocksRun(st, evs[1..]);
    }
  }

  /**
   * Without a pending job nothing is clicked, tapped or scrolled and nothing is
   * posted; only the share-sheet flag and the force-reset wipe may change.
   */
  lemma NoJobNoAction(st: DriverState, ev: Event)
    requires EventOk(ev) && !JobPending(st.prefs)
    ensures var r := AfterEvent(st, ev);
      && r.actions == st.actions && r.deferred == st.deferred
      && r.scrolling == st.scrolling && r.lastToast == st.lastToast
      && (r.clicking == st.clicking || r.clicking == false)
      && (r.prefs == st.prefs || r.prefs == PutBool(st.prefs, KEY_FORCE_RESET, false))
  {
  }

  /** No event sets job_is_pending: only the scheduler arms a job. */
  lemma EventNeverArmsJob(st: DriverState, ev: Event)
    requires EventOk(ev) && !JobPending(st.prefs)
    ensures !JobPending(AfterEvent(st, ev).prefs)
  {
    NoJobNoAction(st, ev);
  }

  /** Callbacks do not touch the store at all. */
  lemma FireKeepsStore(st: DriverState, k: nat)
    requires Ready(st) && k < |st.deferred|
    ensures AfterFire(st, k).prefs == st.prefs
  {
  }

  /**
   * On a share sheet outside WhatsApp in mode "full", a tap is posted exactly when a job
   * is pending, the sheet has not been tapped and both coordinates are positive; the job
   * stays pending and neither WhatsApp search runs.
   */
  lemma ShareSheetTap(st: DriverState, pkg: string, group: string, root: Snapshot, now: int, lk: Lookups)
    requires WellFormed(root) && |root| > 0 && LookupsOk(lk, |root|)
    requires IsShareSheet(pkg, root, lk) && !Contains(pkg, "whatsapp")
    ensures var r := AfterScreen(st, pkg, "full", group, root, now, lk);
      var x, y := GetInt(st.prefs, KEY_ICON_X, 0), GetInt(st.prefs, KEY_ICON_Y, 0);
      && r.prefs == st.prefs && r.actions == st.actions && r.scrolling == st.scrolling
      && (if JobPending(st.prefs) && !st.shareClicked && x > 0 && y > 0
          then r.deferred == st.deferred + [SettleTap(x, y)] && r.shareClicked && r.clicking
          else r == st)
  {
  }

  /** Leaving the share sheet re-arms the one-shot tap. */
  lemma ShareFlagResetOffSheet(st: DriverState, pkg: string, mode: string, group: string, root: Snapshot, now: int, lk: Lookups)
    requires WellFormed(root) && |root| > 0 && LookupsOk(lk, |root|)
    requires !IsShareSheet(pkg, root, lk)
    ensures !AfterScreen(st, pkg, mode, group, root, now, lk).shareClicked
  {
    WhatsAppPhaseFrame(st.(shareClicked := false), root, group, now, lk);
  }

  /**
   * In WhatsApp with a job pending, a send button found clears the job in the same pass and
   * posts its click; the group search does not run.
   */
  lemma SendClearsJob(st: DriverState, root: Snapshot, group: string, now: int, lk: Lookups)
    requires WellFormed(root) && |root| > 0 && LookupsOk(lk, |root|)
    requires !st.clicking && JobPending(st.prefs) && SendTarget(root, lk).Some?
    ensures var r := WhatsAppPhase(st, root, group, now, lk);
      && !JobPending(r.prefs) && r.clicking && r.actions == st.actions && r.lastToast == st.lastToast
      && r.deferred == st.deferred + [SettleNodeClick(root, SendTarget(root, lk).value)]
  {
  }

  /**
   * The view-id probes come first, in order. When the lookups answer truthfully the
   * target is a button with one of the three ids, else a clickable node that is the
   * first in pre-order with a description containing "send" or the clickable parent of it.
   */
  lemma SendTargetOrder(root: Snapshot, lk: Lookups)
    requires WellFormed(root) && |root| > 0 && LookupsOk(lk, |root|)
    requires forall q, j :: q in lk.byViewId && 0 <= j < |lk.byViewId[q]| ==> root[lk.byViewId[q][j]].viewId == Some(q)
    ensures var t := SendTarget(root, lk);
      && (|Lookup(lk.byViewId, SEND_ARROW_ID)| > 0 ==> t == Some(Lookup(lk.byViewId, SEND_ARROW_ID)[0]))
      && (|Lookup(lk.byViewId, SEND_ARROW_ID)| == 0 && |Lookup(lk.byViewId, SEND_ID)| > 0 ==>
            t == Some(Lookup(lk.byViewId, SEND_ID)[0]))
      && (|Lookup(lk.byViewId, SEND_ARROW_ID)| == 0 && |Lookup(lk.byViewId, SEND_ID)| == 0 && |Lookup(lk.byViewId, FAB_ID)| > 0 ==>
            t == Some(Lookup(lk.byViewId, FAB_ID)[0]))
      && (|Lookup(lk.byViewId, SEND_ARROW_ID)| == 0 && |Lookup(lk.byViewId, SEND_ID)| == 0 && |Lookup(lk.byViewId, FAB_ID)| == 0 ==>
            t == FirstHit(root, DescProbe("send"), PreOrder(root, 0)))
      && (t.Some? ==>
           || root[t.value].viewId == Some(SEND_ARROW_ID)
           || root[t.value].viewId == Some(SEND_ID)
           || root[t.value].viewId == Some(FAB_ID)
           || (t == FirstHit(root, DescProbe("send"), PreOrder(root, 0)) && root[t.value].clickable))
  {
    var arrow := Lookup(lk.byViewId, SEND_ARROW_ID);
    var send := Lookup(lk.byViewId, SEND_ID);
    var fab := Lookup(lk.byViewId, FAB_ID);
    if |arrow| > 0 {
      assert root[arrow[0]].viewId == Some(SEND_ARROW_ID);
    } else if |send| > 0 {
      assert root[send[0]].viewId == Some(SEND_ID);
    } else if |fab| > 0 {
      assert root[fab[0]].viewId == Some(FAB_ID);
    } else {
      LowerSend();
    }
  }

  lemma LowerSend()
    ensures Lower("Send") == "send"
  {
    var l := Lower("Send");
    assert l[0] == 's' && l[1] == 'e' && l[2] == 'n' && l[3] == 'd';
  }

  /** An empty target group posts nothing and scrolls nothing. */
  lemma EmptyGroupDoesNothing(st: DriverState, root: Snapshot, now: int, lk: Lookups)
    requires WellFormed(root) && |root| > 0 && LookupsOk(lk, |root|)
    ensures var r := WhatsAppPhase(st, root, "", now, lk);
      SendTarget(root, lk).None? ==> r.deferred == st.deferred && r.actions == st.actions && r.scrolling == st.scrolling
  {
  }

  /**
   * The group search, case by case: a group row found by findMarkerAndClick gets its click
   * posted; failing that, the first scrollable node in pre-order is scrolled when not
   * scrolling already; otherwise nothing changes.
   */
  lemma GroupPhaseOutcome(st: DriverState, root: Snapshot, group: string, lk: Lookups)
    requires WellFormed(root) && |root| > 0 && LookupsOk(lk, |root|) && !st.clicking
    ensures var r := GroupPhase(st, root, group, lk);
      var t := MarkerClickTarget(root, group, Lookup(lk.byText, group));
      && (group == "" ==> r == st)
      && (group != "" && t.Some? ==>
            BoundedClimb(root, t.value, MAX_CLICK_CLIMB).Some?
            && r == st.(clicking := true, deferred := st.deferred + [SettleNodeClick(root, t.value)]))
      && (group != "" && t.None? && !st.scrolling && FindScrollable(root, 0).Some? ==>
            r == st.(scrolling := true, actions := st.actions + [ScrollForward(root, FindScrollable(root, 0).value)],
                     deferred := st.deferred + [ScrollCooldown]))
      && (group != "" && t.None? && (st.scrolling || FindScrollable(root, 0).None?) ==> r == st)
  {
  }

  // ------------------------------------------------------------------
  // Callbacks
  // ------------------------------------------------------------------

  /**
   * The settle callback of a node click climbs at most MAX_CLICK_CLIMB nodes: it clicks a
   * clickable ancestor-or-self found within the bound, and clicks nothing when none is.
   */
  lemma SettleClickWithinBound(st: DriverState, k: nat, snap: Snapshot, node: nat)
    requires Ready(st) && k < |st.deferred| && st.deferred[k] == SettleNodeClick(snap, node)
    ensures WellFormed(snap) && node < |snap|
    ensures !AfterFire(st, k).clicking
    ensures BoundedClimb(snap, node, MAX_CLICK_CLIMB).Some? ==>
      exists t: nat :: t <= node && snap[t].clickable && AfterFire(st, k).actions == st.actions + [Click(snap, t)]
    ensures BoundedClimb(snap, node, MAX_CLICK_CLIMB).None? ==>
      AfterFire(st, k).actions == st.actions && forall e :: 0 <= e < MAX_CLICK_CLIMB ==> !ClickableAt(snap, node, e)
  {
    assert DeferredOk(st.deferred[k]);
    match BoundedClimb(snap, node, MAX_CLICK_CLIMB)
    case Some(t) =>
      var e := BoundedClimbDepth(snap, node, MAX_CLICK_CLIMB);
    case None =>
      BoundedClimbNone(snap, node, MAX_CLICK_CLIMB);
  }

  // ------------------------------------------------------------------
  // Invariants
  // ------------------------------------------------------------------

  lemma {:induction false} PendingAppend(a: seq<Deferred>, b: seq<Deferred>, click: bool)
    ensures Pending(a + b, click) == Pending(a, click) + Pending(b, click)
    decreases |a|
  {
    if a == [] {
      assert a + b == b;
    } else {
      assert (a + b)[1..] == a[1..] + b;
      PendingAppend(a[1..], b, click);
    }
  }

  /** Removing the entry at `k` lowers the count of its own kind by one. */
  lemma PendingRemove(ds: seq<Deferred>, k: nat, click: bool)
    requires k < |ds|
    ensures Pending(ds, click) == Pending(ds[..k] + ds[k + 1..], click) + (if ds[k].ScrollCooldown? != click then 1 else 0)
  {
    assert ds == ds[..k] + ([ds[k]] + ds[k + 1..]);
    PendingAppend(ds[..k], [ds[k]] + ds[k + 1..], click);
    PendingAppend([ds[k]], ds[k + 1..], click);
    PendingAppend(ds[..k], ds[k + 1..], click);
  }

  /** Posting one callback adds one to the count of its kind. */
  lemma PendingPost(ds: seq<Deferred>, d: Deferred)
    ensures Pending(ds + [d], true) == Pending(ds, true) + (if d.ScrollCooldown? then 0 else 1)
    ensures Pending(ds + [d], false) == Pending(ds, false) + (if d.ScrollCooldown? then 1 else 0)
  {
    PendingAppend(ds, [d], true);
    PendingAppend(ds, [d], false);
  }

  /** The pending callbacks are well formed and a scroll cooldown is pending exactly while scrolling. */
  predicate Sound(st: DriverState) {
    Ready(st) && ScrollExclusive(st)
  }

  /** ... and, besides, a click is in flight exactly while isClickingPending is set. */
  predicate Inv(st: DriverState) {
    Sound(st) && ClickExclusive(st)
  }

  lemma VisualClickKeepsInv(st: DriverState, root: Snapshot, node: nat)
    requires WellFormed(root) && node < |root| && !st.clicking
    ensures var r := AfterVisualClick(st, root, node);
      (Sound(st) ==> Sound(r)) && (Inv(st) ==> Inv(r)) && r.clicking
  {
    PendingPost(st.deferred, SettleNodeClick(root, node));
  }

  lemma GroupPhaseKeepsInv(st: DriverState, root: Snapshot, group: string, lk: Lookups)
    requires WellFormed(root) && |root| > 0 && LookupsOk(lk, |root|) && !st.clicking
    ensures var r := GroupPhase(st, root, group, lk);
      (Sound(st) ==> Sound(r)) && (Inv(st) ==> Inv(r))
  {
    if group != "" {
      match MarkerClickTarget(root, group, Lookup(lk.byText, group))
      case Some(t) =>
        VisualClickKeepsInv(st, root, t);
      case None =>
        PendingPost(st.deferred, ScrollCooldown);
    }
  }

  lemma WhatsAppPhaseKeepsInv(st: DriverState, root: Snapshot, group: string, now: int, lk: Lookups)
    requires WellFormed(root) && |root| > 0 && LookupsOk(lk, |root|) && !st.clicking
    ensures var r := WhatsAppPhase(st, root, group, now, lk);
      (Sound(st) ==> Sound(r)) && (Inv(st) ==> Inv(r))
  {
    if JobPending(st.prefs) {
      match SendTarget(root, lk)
      case Some(t) =>
        VisualClickKeepsInv(st, root, t);
      case None =>
        var st' := if now - st.lastToast > TOAST_INTERVAL then st.(lastToast := now) else st;
        GroupPhaseKeepsInv(st', root, group, lk);
    }
  }

  lemma AfterScreenKeepsInv(st: DriverState, pkg: string, mode: string, group: string, root: Snapshot, now: int, lk: Lookups)
    requires WellFormed(root) && |root| > 0 && LookupsOk(lk, |root|) && !st.clicking
    ensures var r := AfterScreen(st, pkg, mode, group, root, now, lk);
      (Sound(st) ==> Sound(r)) && (Inv(st) ==> Inv(r))
  {
    var st' := if !IsShareSheet(pkg, root, lk) then st.(shareClicked := false) else st;
    PendingPost(st'.deferred, SettleTap(GetInt(st.prefs, KEY_ICON_X, 0), GetInt(st.prefs, KEY_ICON_Y, 0)));
    WhatsAppPhaseKeepsInv(st', root, group, now, lk);
  }

  /** Every event keeps the callbacks well formed and the scroll cooldown exclusive. */
  lemma EventKeepsSound(st: DriverState, ev: Event)
    requires EventOk(ev) && Sound(st)
    ensures Sound(AfterEvent(st, ev))
  {
    if ev.pkg.Some? && ev.root.Some? {
      var st' := AfterWipe(st);
      if !st'.clicking {
        AfterScreenKeepsInv(st', Lower(ev.pkg.value), GetString(st.prefs, KEY_AUTO_MODE, "semi"),
          GetString(st.prefs, KEY_TARGET_GROUP, ""), ev.root.value, ev.now, ev.lookups);
      }
    }
  }

  /** Without a force reset an event also keeps at most one click in flight. */
  lemma EventKeepsInv(st: DriverState, ev: Event)
    requires EventOk(ev) && Inv(st) && !ForceReset(st.prefs)
    ensures Inv(AfterEvent(st, ev))
  {
    if ev.pkg.Some? && ev.root.Some? && !st.clicking {
      AfterScreenKeepsInv(st, Lower(ev.pkg.value), GetString(st.prefs, KEY_AUTO_MODE, "semi"),
        GetString(st.prefs, KEY_TARGET_GROUP, ""), ev.root.value, ev.now, ev.lookups);
    }
  }

  /** Every callback keeps all three invariants. */
  lemma FireKeepsInv(st: DriverState, k: nat)
    requires Ready(st) && k < |st.deferred|
    ensures Sound(st) ==> Sound(AfterFire(st, k))
    ensures Inv(st) ==> Inv(AfterFire(st, k))
  {
    var rest := st.deferred[..k] + st.deferred[k + 1..];
    forall i | 0 <= i < |rest| ensures DeferredOk(rest[i]) {
      if i < k { assert rest[i] == st.deferred[i]; } else { assert rest[i] == st.deferred[i + 1]; }
    }
    PendingRemove(st.deferred, k, true);
    PendingRemove(st.deferred, k, false);
  }

  /** The initial state of the service satisfies the invariants. */
  lemma InitialInv(p: Store)
    ensures Inv(DriverState(false, false, false, 0, p, [], []))
  {
  }

  /**
   * On a WhatsApp screen whose only node is a clickable row titled "g", with a job pending
   * for group "g" and no click pending, the driver posts the click on that row.
   */
  lemma GroupRowClick(st: DriverState, mode: string)
    requires !st.clicking && JobPending(st.prefs)
    ensures var root := [UiNode(None, None, None, true, false, None, [])];
      var r := AfterScreen(st, "whatsapp", mode, "g", root, 0, Lookups(map["g" := [0]], map[]));
      r.clicking && r.prefs == st.prefs && r.deferred == st.deferred + [SettleNodeClick(root, 0)]
  {
    var root := [UiNode(None, None, None, true, false, None, [])];
    var lk := Lookups(map["g" := [0]], map[]);
    assert WellFormed(root);
    ContainsItself("whatsapp");
    assert SendTarget(root, lk).None?;
    assert MarkerClickTarget(root, "g", [0]) == Some(0);
    var st' := if !IsShareSheet("whatsapp", root, lk) then st.(shareClicked := false) else st;
    var st'' := if 0 - st'.lastToast > TOAST_INTERVAL then st'.(lastToast := 0) else st';
    assert GroupPhase(st'', root, "g", lk).deferred == st.deferred + [SettleNodeClick(root, 0)];
  }

  /** An event from package "whatsapp" passes the package filter and reaches the screen logic. */
  lemma WhatsAppEventReachesScreen(st: DriverState, root: Snapshot, lk: Lookups)
    requires WellFormed(root) && |root| > 0 && LookupsOk(lk, |root|)
    ensures var w := AfterWipe(st);
      AfterEvent(st, Event(Some("whatsapp"), Some(root), 0, lk)) ==
        if w.clicking then w
        else AfterScreen(w, "whatsapp", GetString(st.prefs, KEY_AUTO_MODE, "semi"), GetString(st.prefs, KEY_TARGET_GROUP, ""), root, 0, lk)
  {
    assert Lower("whatsapp") == "whatsapp" by {
      var l := Lower("whatsapp");
      assert l[0] == 'w' && l[1] == 'h' && l[2] == 'a' && l[3] == 't' && l[4] == 's' && l[5] == 'a' && l[6] == 'p' && l[7] == 'p';
    }
    ContainsItself("whatsapp");
  }

  /**
   * A WhatsApp event on that screen posts the click on the row whenever it gets past the
   * pending-click check: when no click is pending, or when a force reset is requested.
   */
  lemma GroupRowEvent(st: DriverState, root: Snapshot, lk: Lookups)
    requires root == [UiNode(None, None, None, true, false, None, [])]
    requires lk == Lookups(map["g" := [0]], map[])
    requires JobPending(st.prefs) && GetString(st.prefs, KEY_TARGET_GROUP, "") == "g"
    requires !st.clicking || ForceReset(st.prefs)
    ensures EventOk(Event(Some("whatsapp"), Some(root), 0, lk))
    ensures var r := AfterEvent(st, Event(Some("whatsapp"), Some(root), 0, lk));
      r.clicking && r.prefs == AfterWipe(st).prefs && r.deferred == st.deferred + [SettleNodeClick(root, 0)]
  {
    assert WellFormed(root);
    WhatsAppEventReachesScreen(st, root, lk);
    var w := AfterWipe(st);
    assert !w.clicking && JobPending(w.prefs);
    GroupRowClick(w, GetString(st.prefs, KEY_AUTO_MODE, "semi"));
  }

  /**
   * The force-reset wipe clears isClickingPending without cancelling a posted callback.
   * From the initial state, a WhatsApp event with a pending job for group "g" posts the
   * click on the group's row; when the flag force_reset_logic is then set, the same
   * screen posts a second click while the first is still in flight.
   */
  lemma ForceResetAllowsTwoClicks(root: Snapshot, lk: Lookups)
    requires root == [UiNode(None, None, None, true, false, None, [])]
    requires lk == Lookups(map["g" := [0]], map[])
    ensures var st0 := DriverState(false, false, false, 0,
              map[KEY_JOB_PENDING := BoolV(true), KEY_TARGET_GROUP := StrV("g")], [], []);
      var ev := Event(Some("whatsapp"), Some(root), 0, lk);
      var st1 := AfterEvent(st0, ev);
      var st2 := AfterEvent(st1.(prefs := st1.prefs[KEY_FORCE_RESET := BoolV(true)]), ev);
      && Inv(st0)
      && Pending(st1.deferred, true) == 1
      && Pending(st2.deferred, true) == 2
  {
    var p0 := map[KEY_JOB_PENDING := BoolV(true), KEY_TARGET_GROUP := StrV("g")];
    var st0 := DriverState(false, false, false, 0, p0, [], []);
    var ev := Event(Some("whatsapp"), Some(root), 0, lk);
    GroupRowEvent(st0, root, lk);
    var st1 := AfterEvent(st0, ev);
    assert st1.deferred == [SettleNodeClick(root, 0)] && st1.prefs == p0;
    var st1' := st1.(prefs := p0[KEY_FORCE_RESET := BoolV(true)]);
    GroupRowEvent(st1', root, lk);
    assert AfterEvent(st1', ev).deferred == [SettleNodeClick(root, 0), SettleNodeClick(root, 0)];
  }
}

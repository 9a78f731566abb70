/**
 * LunarTagAccessibilityService as an object: its fields are updated in place by
 * onAccessibilityEvent and by the callbacks it posts, and every method is proved to
 * move the object's state exactly as the state machine of module Driver says.
 */
module Service {
  import opened Optional
  import opened Text
  import opened Prefs
  import opened UiTree
  import opened NodeSearch
  import opened Driver

  class LunarTagService {
    var isClickingPending: bool
    var isScrolling: bool
    var shareSheetClicked: bool
    var lastToastTime: int
    var currentState: int
    /** The LunarTagAccessPrefs store. */
    var prefs: Store
    /** The callbacks posted with Handler.postDelayed that have not run yet. */
    var deferred: seq<Deferred>
    /** What the service has done to the screen so far. */
    var actions: seq<Action>

    function State(): DriverState
      reads this
    {
      DriverState(isClickingPending, isScrolling, shareSheetClicked, lastToastTime, prefs, deferred, actions)
    }

    constructor(p: Store)
      ensures State() == DriverState(false, false, false, 0, p, [], [])
      ensures Inv(State()) && currentState == STATE_IDLE
    {
      isClickingPending := false;
      isScrolling := false;
      shareSheetClicked := false;
      lastToastTime := 0;
      currentState := STATE_IDLE;
      prefs := p;
      deferred := [];
      actions := [];
      InitialInv(p);
    }

    method ExecuteVisualClick(root: Snapshot, node: nat)
      modifies this
      ensures State() == AfterVisualClick(old(State()), root, node)
      ensures currentState == old(currentState)
    {
      if isClickingPending {
        return;
      }
      isClickingPending := true;
      deferred := deferred + [SettleNodeClick(root, node)];
    }

    method PerformScroll(root: Snapshot)
      requires WellFormed(root) && |root| > 0
      modifies this
      ensures State() == AfterScroll(old(State()), root)
      ensures currentState == old(currentState)
    {
      if isScrolling {
        return;
      }
      var scrollable := FindScrollable(root, 0);
      if scrollable.Some? {
        isScrolling := true;
        actions := actions + [ScrollForward(root, scrollable.value)];
        deferred := deferred + [ScrollCooldown];
      }
    }

    /** findMarkerAndClickID: click the first node the view-id lookup returns, if any. */
    method FindMarkerAndClickID(root: Snapshot, lk: Lookups, viewId: string) returns (found: bool)
      modifies this
      ensures found == (|Lookup(lk.byViewId, viewId)| > 0)
      ensures State() == if found then AfterVisualClick(old(State()), root, Lookup(lk.byViewId, viewId)[0]) else old(State())
      ensures currentState == old(currentState)
    {
      var nodes := Lookup(lk.byViewId, viewId);
      if |nodes| > 0 {
        ExecuteVisualClick(root, nodes[0]);
        return true;
      }
      return false;
    }

    /** findMarkerAndClickContentDescription, walking the subtree of node `i`. */
    method FindMarkerAndClickContentDescription(root: Snapshot, i: nat, desc: string) returns (found: bool)
      requires WellFormed(root) && i < |root|
      modifies this
      ensures found == DescriptionClickTarget(root, i, desc).Some?
      ensures State() == if found then AfterVisualClick(old(State()), root, DescriptionClickTarget(root, i, desc).value) else old(State())
      ensures currentState == old(currentState)
      decreases |root| - i
    {
      var target := Lower(desc);
      if root[i].desc.Some? {
        var nodeDesc := Lower(root[i].desc.value);
        if nodeDesc == target {
          ContainsItself(target);
        }
        if nodeDesc == target || Contains(nodeDesc, target) {
          if root[i].clickable {
            ExecuteVisualClick(root, i);
            return true;
          } else if root[i].parent.Some? && root[root[i].parent.value].clickable {
            ExecuteVisualClick(root, root[i].parent.value);
            return true;
          }
        }
      }
      var k := 0;
      while k < |root[i].children|
        invariant k <= |root[i].children|
        invariant State() == old(State()) && currentState == old(currentState)
        invariant Dfs(root, DescProbe(target), i) == DfsChildren(root, DescProbe(target), i, k)
      {
        found := FindMarkerAndClickContentDescription(root, root[i].children[k], desc);
        if found {
          return;
        }
        k := k + 1;
      }
      return false;
    }

    /** findMarkerAndClick: the indexed matches first, then the recursive search. */
    method FindMarkerAndClick(root: Snapshot, text: string, hits: seq<nat>) returns (found: bool)
      requires WellFormed(root) && |root| > 0 && AllBelow(hits, |root|)
      modifies this
      ensures found == MarkerClickTarget(root, text, hits).Some?
      ensures State() == if found then AfterVisualClick(old(State()), root, MarkerClickTarget(root, text, hits).value) else old(State())
      ensures currentState == old(currentState)
    {
      if text == "" {
        return false;
      }
      var node := ScanIndexedMatches(root, hits);
      if node.None? {
        node := RecursiveSearchAndClick(root, 0, text);
      }
      if node.Some? {
        ExecuteVisualClick(root, node.value);
        return true;
      }
      return false;
    }

    /**
     * onAccessibilityEvent. Without a force reset it keeps at most one click in flight,
     * and it always keeps the callbacks well formed and the scroll cooldown exclusive.
     */
    method OnAccessibilityEvent(ev: Event)
      requires EventOk(ev)
      modifies this
      ensures State() == AfterEvent(old(State()), ev)
      ensures Sound(old(State())) ==> Sound(State())
      ensures Inv(old(State())) && !ForceReset(old(prefs)) ==> Inv(State())
      ensures currentState == old(currentState)
    {
      if Sound(State()) {
        EventKeepsSound(State(), ev);
      }
      if Inv(State()) && !ForceReset(prefs) {
        EventKeepsInv(State(), ev);
      }
      if ev.pkg.None? {
        return;
      }
      var pkgName := Lower(ev.pkg.value);
      var isSafePackage := Contains(pkgName, "whatsapp") || pkgName == "android" || Contains(pkgName, "chooser") || Contains(pkgName, "systemui");
      if !isSafePackage {
        return;
      }
      var mode := GetString(prefs, KEY_AUTO_MODE, "semi");
      var targetGroup := GetString(prefs, KEY_TARGET_GROUP, "");
      if GetBool(prefs, KEY_FORCE_RESET, false) {
        isClickingPending := false;
        prefs := PutBool(prefs, KEY_FORCE_RESET, false);
      }
      if ev.root.None? || isClickingPending {
        return;
      }
      ScreenStep(pkgName, mode, targetGroup, ev.root.value, ev.now, ev.lookups);
    }

    /** What onAccessibilityEvent does once the root is known and no click is pending. */
    method ScreenStep(pkgName: string, mode: string, targetGroup: string, root: Snapshot, now: int, lk: Lookups)
      requires WellFormed(root) && |root| > 0 && LookupsOk(lk, |root|)
      modifies this
      ensures State() == AfterScreen(old(State()), pkgName, mode, targetGroup, root, now, lk)
      ensures currentState == old(currentState)
    {
      var isShareSheet := CancelShown(root, lk) || pkgName == "android" || Contains(pkgName, "chooser");
      if !isShareSheet {
        shareSheetClicked := false;
      }
      if mode == "full" && isShareSheet && !Contains(pkgName, "whatsapp") {
        ShareSheetClick();
      } else if Contains(pkgName, "whatsapp") {
        WhatsAppStep(root, targetGroup, now, lk);
      }
    }

    /** The share-sheet branch of onAccessibilityEvent. */
    method ShareSheetClick()
      modifies this
      ensures State() == SharePhase(old(State()))
      ensures currentState == old(currentState)
    {
      if GetBool(prefs, KEY_JOB_PENDING, false) && !shareSheetClicked {
        var x := GetInt(prefs, KEY_ICON_X, 0);
        var y := GetInt(prefs, KEY_ICON_Y, 0);
        if x > 0 && y > 0 {
          shareSheetClicked := true;
          isClickingPending := true;
          deferred := deferred + [SettleTap(x, y)];
        }
      }
    }

    /** The WhatsApp branch of onAccessibilityEvent. */
    method WhatsAppStep(root: Snapshot, targetGroup: string, now: int, lk: Lookups)
      requires WellFormed(root) && |root| > 0 && LookupsOk(lk, |root|)
      modifies this
      ensures State() == WhatsAppPhase(old(State()), root, targetGroup, now, lk)
      ensures currentState == old(currentState)
    {
      if !GetBool(prefs, KEY_JOB_PENDING, false) {
        return;
      }
      var sendFound := FindMarkerAndClickID(root, lk, SEND_ARROW_ID);
      if !sendFound {
        sendFound := FindMarkerAndClickID(root, lk, SEND_ID);
      }
      if !sendFound {
        sendFound := FindMarkerAndClickID(root, lk, FAB_ID);
      }
      if !sendFound {
        sendFound := FindMarkerAndClickContentDescription(root, 0, "Send");
      }
      if sendFound {
        prefs := PutBool(prefs, KEY_JOB_PENDING, false);
        return;
      }
      if now - lastToastTime > TOAST_INTERVAL {
        lastToastTime := now;
      }
      GroupSearch(root, targetGroup, lk);
    }

    /** The group search of the WhatsApp branch. */
    method GroupSearch(root: Snapshot, targetGroup: string, lk: Lookups)
      requires WellFormed(root) && |root| > 0 && LookupsOk(lk, |root|)
      modifies this
      ensures State() == GroupPhase(old(State()), root, targetGroup, lk)
      ensures currentState == old(currentState)
    {
      if targetGroup != "" {
        var clicked := FindMarkerAndClick(root, targetGroup, Lookup(lk.byText, targetGroup));
        if clicked {
          return;
        }
        if !isScrolling {
          PerformScroll(root);
        }
      }
    }

    /** Runs the posted callback at position `k`. */
    method FireDeferred(k: nat)
      requires Ready(State()) && k < |deferred|
      modifies this
      ensures State() == AfterFire(old(State()), k)
      ensures Sound(old(State())) ==> Sound(State())
      ensures Inv(old(State())) ==> Inv(State())
      ensures currentState == old(currentState)
    {
      FireKeepsInv(State(), k);
      var rest := deferred[..k] + deferred[k + 1..];
      match deferred[k]
      case SettleNodeClick(snap, node) =>
        assert DeferredOk(deferred[k]);
        var clicked := PerformClick(snap, node);
        if clicked.Some? {
          actions := actions + [Click(snap, clicked.value)];
        }
        isClickingPending := false;
        deferred := rest;
      case SettleTap(x, y) =>
        actions := actions + [Tap(x, y)];
        isClickingPending := false;
        deferred := rest;
      case ScrollCooldown =>
        isScrolling := false;
        deferred := rest;
    }

    method OnInterrupt()
      modifies this
      ensures currentState == STATE_IDLE && State() == old(State())
    {
      currentState := STATE_IDLE;
    }
  }
}

/**
 * OverlayService: the red blink box drawn over a target and the draggable crosshair
 * used to calibrate a screen coordinate. A calibration saves the crosshair's centre
 * into the LunarTagAccessPrefs slot of the mode being trained; the "share" slot is the
 * one the driver's share-sheet tap reads.
 */
module Overlay {
  import opened Optional
  import opened Prefs
  import Driver

  const MODE_SHARE := "MODE_SHARE"
  const MODE_GROUP := "MODE_GROUP"
  const MODE_CHAT := "MODE_CHAT"
  const MODE_PREVIEW := "MODE_PREVIEW"

  const KEY_GROUP_X := "group_x"
  const KEY_GROUP_Y := "group_y"
  const KEY_CHAT_X := "chat_send_x"
  const KEY_CHAT_Y := "chat_send_y"
  const KEY_PREVIEW_X := "preview_send_x"
  const KEY_PREVIEW_Y := "preview_send_y"

  /** Half the crosshair's size: the saved point is its centre. */
  const CENTRE_OFFSET := 75
  /** The side of the box showMarkerAtCoordinate draws at a point. */
  const COORDINATE_BOX := 150
  /** Where a new crosshair appears. */
  const TRAIN_START_X := 500
  const TRAIN_START_Y := 1000

  /** The pair of keys saveCoordinates writes for a training mode. */
  function SlotKeys(mode: string): (string, string) {
    if mode == MODE_GROUP then (KEY_GROUP_X, KEY_GROUP_Y)
    else if mode == MODE_CHAT then (KEY_CHAT_X, KEY_CHAT_Y)
    else if mode == MODE_PREVIEW then (KEY_PREVIEW_X, KEY_PREVIEW_Y)
    else (Driver.KEY_ICON_X, Driver.KEY_ICON_Y)
  }

  /** The calibration slots, one per training mode. */
  predicate IsSlotKey(k: string) {
    k == KEY_GROUP_X || k == KEY_GROUP_Y || k == KEY_CHAT_X || k == KEY_CHAT_Y ||
    k == KEY_PREVIEW_X || k == KEY_PREVIEW_Y || k == Driver.KEY_ICON_X || k == Driver.KEY_ICON_Y
  }

  /**
   * The store after saveCoordinates with the crosshair's top-left corner at (x, y):
   * the centre is written to the two keys of the slot and nothing else changes.
   */
  function Saved(p: Store, mode: string, x: int, y: int): (r: Store)
    ensures GetInt(r, SlotKeys(mode).0, 0) == x + CENTRE_OFFSET
    ensures GetInt(r, SlotKeys(mode).1, 0) == y + CENTRE_OFFSET
    ensures forall k :: k != SlotKeys(mode).0 && k != SlotKeys(mode).1 ==>
      (k in r <==> k in p) && (k in p ==> r[k] == p[k])
  {
    var (kx, ky) := SlotKeys(mode);
    PutInt(PutInt(p, kx, x + CENTRE_OFFSET), ky, y + CENTRE_OFFSET)
  }

  /** Every mode writes a slot of two distinct calibration keys; the named modes have slots of their own. */
  lemma SlotsAreDistinct(m1: string, m2: string)
    ensures SlotKeys(m1).0 != SlotKeys(m1).1
    ensures IsSlotKey(SlotKeys(m1).0) && IsSlotKey(SlotKeys(m1).1)
    ensures SlotKeys(m1) == SlotKeys(m2) <==>
      m1 == m2 || (m1 !in {MODE_GROUP, MODE_CHAT, MODE_PREVIEW} && m2 !in {MODE_GROUP, MODE_CHAT, MODE_PREVIEW})
  {
  }

  /** Training the group, chat or preview slot leaves the share-sheet coordinates alone. */
  lemma OtherSlotsKeepShareIcon(p: Store, mode: string, x: int, y: int)
    requires mode in {MODE_GROUP, MODE_CHAT, MODE_PREVIEW}
    ensures GetInt(Saved(p, mode, x, y), Driver.KEY_ICON_X, 0) == GetInt(p, Driver.KEY_ICON_X, 0)
    ensures GetInt(Saved(p, mode, x, y), Driver.KEY_ICON_Y, 0) == GetInt(p, Driver.KEY_ICON_Y, 0)
  {
  }

  /** A saved calibration never touches the driver's job flags. */
  lemma SaveKeepsJob(p: Store, mode: string, x: int, y: int)
    ensures Driver.JobPending(Saved(p, mode, x, y)) == Driver.JobPending(p)
    ensures Driver.ForceReset(Saved(p, mode, x, y)) == Driver.ForceReset(p)
  {
  }

  /**
   * Calibrating the share icon on screen arms the driver's one-shot share-sheet tap:
   * with a job pending and the sheet not yet tapped, the tap goes to the saved centre.
   */
  lemma ShareCalibrationFeedsDriver(st: Driver.DriverState, mode: string, x: int, y: int)
    requires mode !in {MODE_GROUP, MODE_CHAT, MODE_PREVIEW}
    requires x + CENTRE_OFFSET > 0 && y + CENTRE_OFFSET > 0
    requires Driver.JobPending(st.prefs) && !st.shareClicked
    ensures var st' := st.(prefs := Saved(st.prefs, mode, x, y));
      Driver.SharePhase(st').deferred == st.deferred + [Driver.SettleTap(x + CENTRE_OFFSET, y + CENTRE_OFFSET)]
  {
    var p := Saved(st.prefs, mode, x, y);
    assert SlotKeys(mode) == (Driver.KEY_ICON_X, Driver.KEY_ICON_Y);
    assert Driver.JobPending(p);
  }

  /** showMarkerAtCoordinate: the box of side 150 whose top-left corner is the point. */
  function CoordinateBox(x: int, y: int): (r: (int, int, int, int))
    ensures r.2 - r.0 == COORDINATE_BOX && r.3 - r.1 == COORDINATE_BOX
    ensures r.0 == x && r.1 == y
  {
    (x, y, x + COORDINATE_BOX, y + COORDINATE_BOX)
  }

  /** showTrainingTarget on the fields: a no-op while shown, else a new crosshair at the start position. */
  function ShownTraining(st: OverlayState): (r: OverlayState)
    ensures r.trainingAttached
    ensures st.trainingAttached ==> r == st
    ensures !st.trainingAttached ==> r.trainX == TRAIN_START_X && r.trainY == TRAIN_START_Y
  {
    if st.trainingAttached then st
    else st.(trainingAttached := true, trainX := TRAIN_START_X, trainY := TRAIN_START_Y)
  }

  /** saveCoordinates on the fields: the slot of the current mode is written and the crosshair removed. */
  function SavedState(st: OverlayState): (r: OverlayState)
    ensures !r.trainingAttached && r.prefs == Saved(st.prefs, st.mode, st.trainX, st.trainY)
    ensures r.(trainingAttached := st.trainingAttached, prefs := st.prefs) == st
  {
    st.(prefs := Saved(st.prefs, st.mode, st.trainX, st.trainY), trainingAttached := false)
  }

  /** A crosshair that is dragged and then tapped saves the point it was dragged to, plus the centre offset. */
  lemma DragThenTapSaves(st: OverlayState, downX: int, downY: int, upX: int, upY: int)
    ensures var down := st.(initialX := st.trainX, initialY := st.trainY, initialTouchX := downX, initialTouchY := downY);
      var moved := down.(trainX := down.initialX + (upX - downX), trainY := down.initialY + (upY - downY));
      var r := SavedState(moved);
      GetInt(r.prefs, SlotKeys(st.mode).0, 0) == st.trainX + (upX - downX) + CENTRE_OFFSET &&
      GetInt(r.prefs, SlotKeys(st.mode).1, 0) == st.trainY + (upY - downY) + CENTRE_OFFSET &&
      !r.trainingAttached
  {
  }

  /** The fields of OverlayService. */
  datatype OverlayState = OverlayState(
    blinkAttached: bool,    // isBlinkAttached
    trainingAttached: bool, // isTrainingAttached
    mode: string,           // currentTrainMode
    blinkX: int, blinkY: int, blinkW: int, blinkH: int, // blinkParams and the box's size
    trainX: int, trainY: int,                          // trainingParams.x/y
    initialX: int, initialY: int, initialTouchX: int, initialTouchY: int, // the drag listener's start
    prefs: Store)           // LunarTagAccessPrefs

  /**
   * OverlayService, once created. The blink box is placed at (blinkX, blinkY) with size
   * blinkW by blinkH; (trainX, trainY) is the crosshair's position; the initial* fields
   * are what the drag listener records on touch-down.
   */
  class OverlayService {
    var isBlinkAttached: bool
    var isTrainingAttached: bool
    var currentTrainMode: string
    var blinkX: int
    var blinkY: int
    var blinkW: int
    var blinkH: int
    var trainX: int
    var trainY: int
    var initialX: int
    var initialY: int
    var initialTouchX: int
    var initialTouchY: int
    var prefs: Store

    function State(): OverlayState
      reads this
    {
      OverlayState(isBlinkAttached, isTrainingAttached, currentTrainMode, blinkX, blinkY, blinkW, blinkH,
                   trainX, trainY, initialX, initialY, initialTouchX, initialTouchY, prefs)
    }

    /** onCreate: nothing attached, training the share slot. */
    constructor(p: Store)
      ensures State() == OverlayState(false, false, MODE_SHARE, 0, 0, 0, 0, 0, 0, 0, 0, 0, 0, p)
    {
      isBlinkAttached := false;
      isTrainingAttached := false;
      currentTrainMode := MODE_SHARE;
      blinkX, blinkY, blinkW, blinkH := 0, 0, 0, 0;
      trainX, trainY := 0, 0;
      initialX, initialY, initialTouchX, initialTouchY := 0, 0, 0, 0;
      prefs := p;
    }

    /** onStartCommand: a start-training intent records its mode, "MODE_SHARE" when absent, and shows the crosshair. */
    method OnStartCommand(startTraining: bool, mode: Option<string>)
      modifies this
      ensures !startTraining ==> State() == old(State())
      ensures startTraining ==> State() == ShownTraining(old(State()).(mode := if mode.Some? then mode.value else MODE_SHARE))
    {
      if startTraining {
        if mode.Some? {
          currentTrainMode := mode.value;
        } else {
          currentTrainMode := MODE_SHARE;
        }
        ShowTrainingTarget();
      }
    }

    /**
     * showMarkerAt: the crosshair is taken down, the box is moved and sized to the
     * bounds, and attached if it was not.
     */
    method ShowMarkerAt(left: int, top: int, right: int, bottom: int)
      modifies this
      ensures State() == old(State()).(blinkAttached := true, trainingAttached := false,
        blinkX := left, blinkY := top, blinkW := right - left, blinkH := bottom - top)
    {
      if isTrainingAttached {
        RemoveTrainingView();
      }
      blinkX := left;
      blinkY := top;
      blinkW := right - left;
      blinkH := bottom - top;
      if !isBlinkAttached {
        isBlinkAttached := true;
      }
    }

    /** showMarkerAtCoordinate: a 150 by 150 box whose top-left corner is (x, y). */
    method ShowMarkerAtCoordinate(x: int, y: int)
      modifies this
      ensures isBlinkAttached && !isTrainingAttached
      ensures (blinkX, blinkY, blinkX + blinkW, blinkY + blinkH) == CoordinateBox(x, y)
      ensures State() == old(State()).(blinkAttached := true, trainingAttached := false,
        blinkX := x, blinkY := y, blinkW := COORDINATE_BOX, blinkH := COORDINATE_BOX)
    {
      var box := CoordinateBox(x, y);
      ShowMarkerAt(box.0, box.1, box.2, box.3);
    }

    /** hideMarker: the box is removed if it is attached. */
    method HideMarker()
      modifies this
      ensures State() == old(State()).(blinkAttached := false)
    {
      if isBlinkAttached {
        isBlinkAttached := false;
      }
    }

    /** showTrainingTarget: does nothing while a crosshair is shown; otherwise shows one at (500, 1000). */
    method ShowTrainingTarget()
      modifies this
      ensures State() == ShownTraining(old(State()))
    {
      if isTrainingAttached {
        return;
      }
      trainX := TRAIN_START_X;
      trainY := TRAIN_START_Y;
      isTrainingAttached := true;
    }

    /** ACTION_DOWN on the crosshair: remember where the drag starts. */
    method OnTouchDown(rawX: int, rawY: int)
      modifies this
      ensures State() == old(State()).(initialX := old(trainX), initialY := old(trainY),
        initialTouchX := rawX, initialTouchY := rawY)
    {
      initialX := trainX;
      initialY := trainY;
      initialTouchX := rawX;
      initialTouchY := rawY;
    }

    /** ACTION_MOVE: the crosshair follows the finger by the same offset. */
    method OnTouchMove(rawX: int, rawY: int)
      modifies this
      ensures State() == old(State()).(trainX := old(initialX) + (rawX - old(initialTouchX)),
        trainY := old(initialY) + (rawY - old(initialTouchY)))
    {
      trainX := initialX + (rawX - initialTouchX);
      trainY := initialY + (rawY - initialTouchY);
    }

    /** ACTION_UP: a tap (quick and short, decided by the caller) saves the calibration. */
    method OnTouchUp(isTap: bool)
      modifies this
      ensures !isTap ==> State() == old(State())
      ensures isTap ==> State() == SavedState(old(State()))
    {
      if isTap {
        SaveCoordinates();
      }
    }

    /** saveCoordinates: the crosshair's centre goes to the slot of the mode, then the crosshair goes away. */
    method SaveCoordinates()
      modifies this
      ensures State() == SavedState(old(State()))
    {
      var targetX := trainX + CENTRE_OFFSET;
      var targetY := trainY + CENTRE_OFFSET;
      if currentTrainMode == MODE_GROUP {
        prefs := PutInt(PutInt(prefs, KEY_GROUP_X, targetX), KEY_GROUP_Y, targetY);
      } else if currentTrainMode == MODE_CHAT {
        prefs := PutInt(PutInt(prefs, KEY_CHAT_X, targetX), KEY_CHAT_Y, targetY);
      } else if currentTrainMode == MODE_PREVIEW {
        prefs := PutInt(PutInt(prefs, KEY_PREVIEW_X, targetX), KEY_PREVIEW_Y, targetY);
      } else {
        prefs := PutInt(PutInt(prefs, Driver.KEY_ICON_X, targetX), Driver.KEY_ICON_Y, targetY);
      }
      RemoveTrainingView();
    }

    /** removeTrainingView: the crosshair is removed if it is attached. */
    method RemoveTrainingView()
      modifies this
      ensures State() == old(State()).(trainingAttached := false)
    {
      if isTrainingAttached {
        isTrainingAttached := false;
      }
    }

    /** onDestroy: both views are taken down. */
    method OnDestroy()
      modifies this
      ensures State() == old(State()).(blinkAttached := false, trainingAttached := false)
    {
      HideMarker();
      RemoveTrainingView();
    }
  }
}

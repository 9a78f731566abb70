/**
 * MainActivity: the log history every component broadcasts into, the colour the log
 * icon blinks for each message, and the runtime-permission check run at start-up.
 */
module Activity {
  import opened Optional
  import opened Text
  import Driver

  const ACTION_LOG_UPDATE := "com.lunartag.ACTION_LOG_UPDATE"
  /** The first line of the history, appended by onCreate. */
  const STARTED_LINE := "-- SYSTEM STARTED --\n"
  /** The line onPermissionsGranted appends. */
  const GRANTED_LINE := "System: Permissions Granted.\n"

  /** The two colours the log icon blinks in. */
  datatype Color = Green | Red

  /** A broadcast as the log receiver sees it: its action and its two string extras. */
  datatype Intent = Intent(action: Option<string>, logMsg: Option<string>, logType: Option<string>)

  // ------------------------------------------------------------------
  // The log receiver
  // ------------------------------------------------------------------

  /** The receiver acts on a non-null log-update intent that carries a message. */
  predicate Accepted(intent: Option<Intent>) {
    intent.Some? && intent.value.action == Some(ACTION_LOG_UPDATE) && intent.value.logMsg.Some?
  }

  /** What one received intent adds to the history: its message and a newline, or nothing. */
  function LogEntry(intent: Option<Intent>): (r: string)
    ensures Accepted(intent) ==> |r| > 0 && r[|r| - 1] == '\n' && r[..|r| - 1] == intent.value.logMsg.value
    ensures !Accepted(intent) ==> r == ""
  {
    if Accepted(intent) then intent.value.logMsg.value + "\n" else ""
  }

  /** The history a run of received intents appends, oldest first. */
  function Logged(intents: seq<Option<Intent>>): string
    decreases |intents|
  {
    if intents == [] then "" else LogEntry(intents[0]) + Logged(intents[1..])
  }

  /** Receiving one run of intents and then another appends the two parts in order. */
  lemma {:induction false} LoggedAppend(a: seq<Option<Intent>>, b: seq<Option<Intent>>)
    ensures Logged(a + b) == Logged(a) + Logged(b)
    decreases |a|
  {
    if a == [] {
      assert a + b == b;
    } else {
      assert (a + b)[0] == a[0];
      assert (a + b)[1..] == a[1..] + b;
      LoggedAppend(a[1..], b);
    }
  }

  /** Intents the receiver ignores add nothing to the history. */
  lemma {:induction false} LoggedIgnoresRejected(intents: seq<Option<Intent>>)
    requires forall i :: 0 <= i < |intents| ==> !Accepted(intents[i])
    ensures Logged(intents) == ""
    decreases |intents|
  {
    if intents != [] {
      LoggedIgnoresRejected(intents[1..]);
    }
  }

  /** The colour blinkLogIcon chooses: red for a type equal, ignoring case, to "error" or "fail". */
  function BlinkColor(logType: Option<string>): Color {
    if logType.Some? && (EqualsIgnoreCase(logType.value, "error") || EqualsIgnoreCase(logType.value, "fail"))
    then Red else Green
  }

  lemma LowerOfTypeWords()
    ensures Lower("error") == "error" && Lower("ERROR") == "error"
    ensures |Lower("info")| == 4 && Lower("info")[0] == 'i'
    ensures |Lower("fail")| == 4 && Lower("fail")[0] == 'f'
  {
    var e, u := Lower("error"), Lower("ERROR");
    assert e[0] == 'e' && e[1] == 'r' && e[2] == 'r' && e[3] == 'o' && e[4] == 'r';
    assert u[0] == 'e' && u[1] == 'r' && u[2] == 'r' && u[3] == 'o' && u[4] == 'r';
  }

  /**
   * Sender and receiver agree: a message the service types "error" (one whose lower-cased
   * text contains "error", "fail" or "missing") blinks red, every other message blinks green.
   */
  lemma ServiceMessagesBlink(msg: string)
    ensures BlinkColor(Some(Driver.LogTypeOf(Some(msg)))) == Red <==>
      (Contains(Lower(msg), "error") || Contains(Lower(msg), "fail") || Contains(Lower(msg), "missing"))
  {
    LowerOfTypeWords();
  }

  /** A missing type, or the type "info", blinks green; "ERROR" blinks red. */
  lemma BlinkExamples()
    ensures BlinkColor(None) == Green && BlinkColor(Some("info")) == Green
    ensures BlinkColor(Some("ERROR")) == Red
  {
    LowerOfTypeWords();
  }

  // ------------------------------------------------------------------
  // Permissions
  // ------------------------------------------------------------------

  /** The required permissions that are named and not granted, in their order. */
  function Missing(required: seq<Option<string>>, granted: set<string>): (r: seq<string>)
    ensures |r| <= |required|
    decreases |required|
  {
    if required == [] then []
    else (if required[0].Some? && required[0].value !in granted then [required[0].value] else [])
         + Missing(required[1..], granted)
  }

  /** A permission is requested exactly when it is required, named and not granted. */
  lemma {:induction false} MissingMembers(required: seq<Option<string>>, granted: set<string>, p: string)
    ensures p in Missing(required, granted) <==> Some(p) in required && p !in granted
    decreases |required|
  {
    if required != [] {
      MissingMembers(required[1..], granted, p);
      assert required == [required[0]] + required[1..];
    }
  }

  /** Removing the granted permissions keeps the order of the rest: a missing list of a prefix is a prefix. */
  lemma {:induction false} MissingAppend(a: seq<Option<string>>, b: seq<Option<string>>, granted: set<string>)
    ensures Missing(a + b, granted) == Missing(a, granted) + Missing(b, granted)
    decreases |a|
  {
    if a == [] {
      assert a + b == b;
    } else {
      assert (a + b)[0] == a[0];
      assert (a + b)[1..] == a[1..] + b;
      MissingAppend(a[1..], b, granted);
    }
  }

  /**
   * The loop of checkAndRequestPermissions: the list to request and whether everything
   * was already granted.
   */
  method PermissionsToRequest(required: seq<Option<string>>, granted: set<string>)
    returns (toRequest: seq<string>, allAlreadyGranted: bool)
    ensures toRequest == Missing(required, granted)
    ensures allAlreadyGranted <==> toRequest == []
    ensures forall p :: p in toRequest <==> Some(p) in required && p !in granted
  {
    toRequest := [];
    allAlreadyGranted := true;
    var i := 0;
    while i < |required|
      invariant 0 <= i <= |required|
      invariant toRequest == Missing(required[..i], granted)
      invariant allAlreadyGranted <==> toRequest == []
    {
      var permission := required[i];
      MissingAppend(required[..i], [permission], granted);
      assert required[..i + 1] == required[..i] + [permission];
      if permission.Some? && permission.value !in granted {
        toRequest := toRequest + [permission.value];
        allAlreadyGranted := false;
      }
      i := i + 1;
    }
    assert required[..i] == required;
    forall p ensures p in toRequest <==> Some(p) in required && p !in granted {
      MissingMembers(required, granted, p);
    }
  }

  /** The result callback's loop: every answer in the result map is a grant. */
  method AllGranted(results: map<string, bool>) returns (allGranted: bool)
    ensures allGranted <==> forall p :: p in results ==> results[p]
  {
    allGranted := true;
    var left := results.Keys;
    while left != {}
      invariant left <= results.Keys
      invariant allGranted <==> forall p :: p in results && p !in left ==> results[p]
      decreases |left|
    {
      var p :| p in left;
      if !results[p] {
        allGranted := false;
        break;
      }
      left := left - {p};
    }
  }

  // ------------------------------------------------------------------
  // The activity
  // ------------------------------------------------------------------

  class MainActivity {
    /** logHistory, the StringBuilder every received message is appended to. */
    var logHistory: string
    /** The colour of every blink of the log icon so far. */
    var blinks: seq<Color>
    /** The permission lists handed to the permission launcher so far. */
    var requests: seq<seq<string>>

    /** The history as it stands after onCreate's first line. */
    ghost predicate Started()
      reads this
    {
      |logHistory| >= |STARTED_LINE| && logHistory[..|STARTED_LINE|] == STARTED_LINE
    }

    /**
     * onCreate: the history starts with its first line, then the permission check runs;
     * `required` is the list for the device's SDK level, `granted` what the user has granted.
     */
    constructor(required: seq<Option<string>>, granted: set<string>)
      ensures logHistory == STARTED_LINE + (if Missing(required, granted) == [] then GRANTED_LINE else "")
      ensures requests == (if Missing(required, granted) == [] then [] else [Missing(required, granted)])
      ensures blinks == [] && Started()
    {
      logHistory := STARTED_LINE;
      blinks := [];
      requests := [];
      new;
      CheckAndRequestPermissions(required, granted);
    }

    /** checkAndRequestPermissions: request the missing ones; when none is, run onPermissionsGranted. */
    method CheckAndRequestPermissions(required: seq<Option<string>>, granted: set<string>)
      modifies this
      ensures logHistory == old(logHistory) + (if Missing(required, granted) == [] then GRANTED_LINE else "")
      ensures requests == old(requests) + (if Missing(required, granted) == [] then [] else [Missing(required, granted)])
      ensures blinks == old(blinks)
    {
      var toRequest, allAlreadyGranted := PermissionsToRequest(required, granted);
      if toRequest != [] {
        requests := requests + [toRequest];
      }
      if allAlreadyGranted {
        OnPermissionsGranted();
      }
    }

    method OnPermissionsGranted()
      modifies this
      ensures logHistory == old(logHistory) + GRANTED_LINE
      ensures blinks == old(blinks) && requests == old(requests)
    {
      logHistory := logHistory + GRANTED_LINE;
    }

    /** The permission launcher's result: onPermissionsGranted only when every answer is a grant. */
    method OnPermissionResult(results: map<string, bool>)
      modifies this
      ensures logHistory == old(logHistory) + (if forall p :: p in results ==> results[p] then GRANTED_LINE else "")
      ensures blinks == old(blinks) && requests == old(requests)
    {
      var allGranted := AllGranted(results);
      if allGranted {
        OnPermissionsGranted();
      }
    }

    /** logReceiver.onReceive: append an accepted message to the history and blink for its type. */
    method OnReceive(intent: Option<Intent>)
      modifies this
      ensures logHistory == old(logHistory) + LogEntry(intent)
      ensures blinks == old(blinks) + (if Accepted(intent) then [BlinkColor(intent.value.logType)] else [])
      ensures requests == old(requests)
      ensures old(Started()) ==> Started()
    {
      if intent.Some? && intent.value.action == Some(ACTION_LOG_UPDATE) {
        var message := intent.value.logMsg;
        if message.Some? {
          logHistory := logHistory + message.value + "\n";
          blinks := blinks + [BlinkColor(intent.value.logType)];
        }
      }
    }

    /** getGlobalLogs: the whole history, first line included. */
    method GetGlobalLogs() returns (logs: string)
      ensures logs == logHistory
    {
      logs := logHistory;
    }
  }
}

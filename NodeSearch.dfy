/**
 * The node-search engine of the accessibility service: text normalisation, the
 * depth-first searches over a snapshot, and the climbs from a node to a clickable
 * ancestor. Every search returns the first hit of a pre-order walk.
 */
module NodeSearch {
  import opened Optional
  import opened Text
  import opened UiTree

  /** The ancestor climb of performClick inspects at most this many nodes. */
  const MAX_CLICK_CLIMB: nat := 6

  /**
   * cleanString: null becomes "", otherwise the text is lower-cased, every space and
   * every newline is removed, and what remains is trimmed.
   */
  function CleanString(input: Option<string>): (r: string)
    ensures ' ' !in r && '\n' !in r
    ensures forall c :: c in r ==> !IsUpper(c)
    ensures r == [] || (!IsTrimmed(r[0]) && !IsTrimmed(r[|r| - 1]))
    ensures input.None? ==> r == ""
    ensures input.Some? ==> forall c :: c in r ==> c in Lower(input.value)
  {
    match input
    case None => ""
    case Some(s) => Trim(Strip(Strip(Lower(s), ' '), '\n'))
  }

  /** The text or the content description of `n`, cleaned, contains the cleaned `query`. */
  predicate TextMatch(n: UiNode, query: string) {
    || (n.text.Some? && Contains(CleanString(n.text), query))
    || (n.desc.Some? && Contains(CleanString(n.desc), query))
  }

  /** The lower-cased content description of `n` contains `target`. */
  predicate DescMatch(n: UiNode, target: string) {
    n.desc.Some? && Contains(Lower(n.desc.value), target)
  }

  /** Node `j` or its parent is clickable; a missing parent counts as not clickable. */
  predicate SelfOrParentClickable(s: Snapshot, j: nat)
    requires WellFormed(s) && j < |s|
  {
    s[j].clickable || (s[j].parent.Some? && s[s[j].parent.value].clickable)
  }

  /** The nearest clickable node among `i` and its ancestors, climbing without bound. */
  function NearestClickable(s: Snapshot, i: nat): (r: Option<nat>)
    requires WellFormed(s) && i < |s|
    ensures r.Some? ==> r.value <= i && s[r.value].clickable
    decreases i
  {
    if s[i].clickable then Some(i)
    else match s[i].parent
      case None => None
      case Some(p) => NearestClickable(s, p)
  }

  /** The climb of performClick: at most `fuel` nodes of the parent chain are inspected. */
  function BoundedClimb(s: Snapshot, i: nat, fuel: nat): (r: Option<nat>)
    requires WellFormed(s) && i < |s|
    ensures r.Some? ==> r.value <= i && s[r.value].clickable
    ensures fuel == 0 ==> r.None?
    decreases fuel
  {
    if fuel == 0 then None
    else if s[i].clickable then Some(i)
    else match s[i].parent
      case None => None
      case Some(p) => BoundedClimb(s, p, fuel - 1)
  }

  /** What a depth-first search looks for at one node, and which node it then acts on. */
  datatype Probe =
    | TextProbe(query: string)          // recursiveCheckText
    | ClickableTextProbe(query: string) // recursiveSearchAndClick
    | DescProbe(target: string)         // findMarkerAndClickContentDescription
    | ScrollableProbe                   // findScrollable

  /** The result of probing node `i` alone; None lets the search go on. */
  function Hit(s: Snapshot, p: Probe, i: nat): (r: Option<nat>)
    requires WellFormed(s) && i < |s|
    ensures r.Some? ==> r.value < |s|
  {
    match p
    case TextProbe(q) => if TextMatch(s[i], q) then Some(i) else None
    case ClickableTextProbe(q) => if TextMatch(s[i], q) then NearestClickable(s, i) else None
    case DescProbe(t) =>
      if !DescMatch(s[i], t) then None
      else if s[i].clickable then Some(i)
      else if s[i].parent.Some? && s[s[i].parent.value].clickable then s[i].parent
      else None
    case ScrollableProbe => if s[i].scrollable then Some(i) else None
  }

  /** The recursive walk of the source: probe the node, then each child subtree in order. */
  function Dfs(s: Snapshot, p: Probe, i: nat): (r: Option<nat>)
    requires WellFormed(s) && i < |s|
    decreases |s| - i, |s[i].children| + 1
  {
    if Hit(s, p, i).Some? then Hit(s, p, i) else DfsChildren(s, p, i, 0)
  }

  function DfsChildren(s: Snapshot, p: Probe, i: nat, k: nat): (r: Option<nat>)
    requires WellFormed(s) && i < |s| && k <= |s[i].children|
    decreases |s| - i, |s[i].children| - k
  {
    if k == |s[i].children| then None
    else
      var r := Dfs(s, p, s[i].children[k]);
      if r.Some? then r else DfsChildren(s, p, i, k + 1)
  }

  /** The position of the first node of `xs` the probe hits, or |xs| when there is none. */
  function FirstHitIndex(s: Snapshot, p: Probe, xs: seq<nat>): (k: nat)
    requires WellFormed(s) && AllBelow(xs, |s|)
    ensures k <= |xs|
    ensures forall j :: 0 <= j < k ==> Hit(s, p, xs[j]).None?
    ensures k < |xs| ==> Hit(s, p, xs[k]).Some?
  {
    if xs == [] then 0
    else if Hit(s, p, xs[0]).Some? then 0
    else 1 + FirstHitIndex(s, p, xs[1..])
  }

  /** Reference definition of a search: the hit at the first node of `xs` that the probe accepts. */
  function FirstHit(s: Snapshot, p: Probe, xs: seq<nat>): Option<nat>
    requires WellFormed(s) && AllBelow(xs, |s|)
  {
    var k := FirstHitIndex(s, p, xs);
    if k < |xs| then Hit(s, p, xs[k]) else None
  }

  /** The first-hit position is the only position with its two defining properties. */
  lemma FirstHitIndexUnique(s: Snapshot, p: Probe, xs: seq<nat>, k: nat)
    requires WellFormed(s) && AllBelow(xs, |s|)
    requires k <= |xs|
    requires forall j :: 0 <= j < k ==> Hit(s, p, xs[j]).None?
    requires k < |xs| ==> Hit(s, p, xs[k]).Some?
    ensures k == FirstHitIndex(s, p, xs)
  {
  }

  /** Searching a concatenation searches the first part, then the second. */
  lemma FirstHitAppend(s: Snapshot, p: Probe, a: seq<nat>, b: seq<nat>)
    requires WellFormed(s) && AllBelow(a, |s|) && AllBelow(b, |s|)
    ensures FirstHit(s, p, a + b) == if FirstHit(s, p, a).Some? then FirstHit(s, p, a) else FirstHit(s, p, b)
  {
    var ab := a + b;
    var ka := FirstHitIndex(s, p, a);
    if ka < |a| {
      FirstHitIndexUnique(s, p, ab, ka);
      assert ab[ka] == a[ka];
    } else {
      var kb := FirstHitIndex(s, p, b);
      forall j | 0 <= j < |a| + kb ensures Hit(s, p, ab[j]).None? {
        if j < |a| { assert ab[j] == a[j]; } else { assert ab[j] == b[j - |a|]; }
      }
      if kb < |b| { assert ab[|a| + kb] == b[kb]; }
      FirstHitIndexUnique(s, p, ab, |a| + kb);
    }
  }

  /** The recursive walk finds exactly the first hit of the pre-order listing. */
  lemma {:induction false} DfsIsFirstHit(s: Snapshot, p: Probe, i: nat)
    requires WellFormed(s) && i < |s|
    ensures Dfs(s, p, i) == FirstHit(s, p, PreOrder(s, i))
    decreases |s| - i, |s[i].children| + 1
  {
    DfsChildrenIsFirstHit(s, p, i, 0);
    FirstHitAppend(s, p, [i], PreOrderChildren(s, i, 0));
    if Hit(s, p, i).None? {
      FirstHitIndexUnique(s, p, [i], 1);
    } else {
      FirstHitIndexUnique(s, p, [i], 0);
    }
  }

  lemma {:induction false} DfsChildrenIsFirstHit(s: Snapshot, p: Probe, i: nat, k: nat)
    requires WellFormed(s) && i < |s| && k <= |s[i].children|
    ensures DfsChildren(s, p, i, k) == FirstHit(s, p, PreOrderChildren(s, i, k))
    decreases |s| - i, |s[i].children| - k
  {
    if k == |s[i].children| {
      FirstHitIndexUnique(s, p, [], 0);
    } else {
      var c := s[i].children[k];
      DfsIsFirstHit(s, p, c);
      DfsChildrenIsFirstHit(s, p, i, k + 1);
      FirstHitAppend(s, p, PreOrder(s, c), PreOrderChildren(s, i, k + 1));
    }
  }

  // ------------------------------------------------------------------
  // The searches of the service, each a first hit of the pre-order walk
  // ------------------------------------------------------------------

  /** recursiveCheckText: some node of the subtree has a cleaned text or description containing `text`. */
  function RecursiveCheckText(s: Snapshot, i: nat, text: string): (r: bool)
    requires WellFormed(s) && i < |s|
    ensures r <==> exists j :: 0 <= j < |PreOrder(s, i)| && TextMatch(s[PreOrder(s, i)[j]], text)
  {
    DfsIsFirstHit(s, TextProbe(text), i);
    var po := PreOrder(s, i);
    var k := FirstHitIndex(s, TextProbe(text), po);
    assert k < |po| ==> TextMatch(s[po[k]], text);
    Dfs(s, TextProbe(text), i).Some?
  }

  /**
   * hasText: the cleaned text is found by the platform's indexed lookup (`indexed`, the
   * nodes it returned) or by the recursive fallback from the root.
   */
  function HasText(s: Snapshot, text: string, indexed: seq<nat>): (r: bool)
    requires WellFormed(s) && |s| > 0
    ensures r <==> (|indexed| > 0 ||
      exists j :: 0 <= j < |PreOrder(s, 0)| && TextMatch(s[PreOrder(s, 0)[j]], CleanString(Some(text))))
  {
    var found := RecursiveCheckText(s, 0, CleanString(Some(text)));
    assert found ==> exists j :: 0 <= j < |PreOrder(s, 0)| && TextMatch(s[PreOrder(s, 0)[j]], CleanString(Some(text)));
    |indexed| > 0 || found
  }

  /** findScrollable: the first scrollable node of the subtree in pre-order. */
  function FindScrollable(s: Snapshot, i: nat): (r: Option<nat>)
    requires WellFormed(s) && i < |s|
    ensures r == FirstHit(s, ScrollableProbe, PreOrder(s, i))
    ensures r.Some? ==> r.value < |s| && s[r.value].scrollable
    ensures r.None? <==> forall j :: 0 <= j < |PreOrder(s, i)| ==> !s[PreOrder(s, i)[j]].scrollable
  {
    DfsIsFirstHit(s, ScrollableProbe, i);
    Dfs(s, ScrollableProbe, i)
  }

  /**
   * The node findMarkerAndClickContentDescription clicks: the first node in pre-order whose
   * lower-cased description contains the lower-cased `desc` and that is clickable itself
   * or has a clickable parent; it is that node, or else its parent.
   */
  function DescriptionClickTarget(s: Snapshot, i: nat, desc: string): (r: Option<nat>)
    requires WellFormed(s) && i < |s|
    ensures r == FirstHit(s, DescProbe(Lower(desc)), PreOrder(s, i))
    ensures r.Some? ==> r.value < |s| && s[r.value].clickable
  {
    DfsIsFirstHit(s, DescProbe(Lower(desc)), i);
    Dfs(s, DescProbe(Lower(desc)), i)
  }

  /**
   * The node recursiveSearchAndClick clicks for the cleaned query `query`: the nearest
   * clickable ancestor-or-self of the first text match in pre-order that has one; a match
   * without one is skipped.
   */
  function SearchClickTarget(s: Snapshot, i: nat, query: string): (r: Option<nat>)
    requires WellFormed(s) && i < |s|
    ensures r == FirstHit(s, ClickableTextProbe(query), PreOrder(s, i))
    ensures r.Some? ==> r.value < |s| && s[r.value].clickable
  {
    DfsIsFirstHit(s, ClickableTextProbe(query), i);
    Dfs(s, ClickableTextProbe(query), i)
  }

  /** The loop of findMarkerAndClick over the indexed matches: the first one that is clickable or has a clickable parent. */
  function IndexedClickable(s: Snapshot, hits: seq<nat>): (r: Option<nat>)
    requires WellFormed(s) && AllBelow(hits, |s|)
    ensures r.Some? ==> r.value in hits && r.value < |s| && SelfOrParentClickable(s, r.value)
    ensures r.None? <==> forall j :: 0 <= j < |hits| ==> !SelfOrParentClickable(s, hits[j])
  {
    if hits == [] then None
    else if SelfOrParentClickable(s, hits[0]) then Some(hits[0])
    else IndexedClickable(s, hits[1..])
  }

  /** The indexed match chosen is the first that qualifies: every match before it is skipped. */
  lemma {:induction false} IndexedClickableIsFirst(s: Snapshot, hits: seq<nat>)
    requires WellFormed(s) && AllBelow(hits, |s|)
    ensures var r := IndexedClickable(s, hits);
      r.Some? ==> exists k :: 0 <= k < |hits| && hits[k] == r.value && forall j :: 0 <= j < k ==> !SelfOrParentClickable(s, hits[j])
    decreases |hits|
  {
    if hits != [] && !SelfOrParentClickable(s, hits[0]) {
      IndexedClickableIsFirst(s, hits[1..]);
      var r := IndexedClickable(s, hits);
      if r.Some? {
        var k :| 0 <= k < |hits[1..]| && hits[1..][k] == r.value && forall j :: 0 <= j < k ==> !SelfOrParentClickable(s, hits[1..][j]);
        assert hits[k + 1] == r.value;
        assert forall j :: 0 <= j < k + 1 ==> !SelfOrParentClickable(s, hits[j]) by {
          forall j | 0 <= j < k + 1 ensures !SelfOrParentClickable(s, hits[j]) {
            if j > 0 { assert hits[j] == hits[1..][j - 1]; }
          }
        }
      }
    } else if hits != [] {
      assert hits[0] == IndexedClickable(s, hits).value;
    }
  }

  /**
   * The node findMarkerAndClick hands to executeVisualClick: none for an empty text,
   * else the first usable indexed match, else the recursive search's target.
   */
  function MarkerClickTarget(s: Snapshot, text: string, hits: seq<nat>): (r: Option<nat>)
    requires WellFormed(s) && |s| > 0 && AllBelow(hits, |s|)
    ensures text == "" ==> r.None?
    ensures r.Some? ==> r.value < |s| && BoundedClimb(s, r.value, MAX_CLICK_CLIMB).Some?
  {
    if text == "" then None
    else match IndexedClickable(s, hits)
      case Some(j) =>
        SelfOrParentClickableIsReached(s, j);
        Some(j)
      case None =>
        var t := SearchClickTarget(s, 0, CleanString(Some(text)));
        if t.Some? then SelfOrParentClickableIsReached(s, t.value); t else t
  }

  // ------------------------------------------------------------------
  // The parent climbs
  // ------------------------------------------------------------------

  /** A node that is clickable, or whose parent is, is reached by the bounded climb of performClick. */
  lemma SelfOrParentClickableIsReached(s: Snapshot, j: nat)
    requires WellFormed(s) && j < |s| && SelfOrParentClickable(s, j)
    ensures BoundedClimb(s, j, MAX_CLICK_CLIMB).Some?
  {
    if !s[j].clickable {
      var p := s[j].parent.value;
      assert BoundedClimb(s, p, MAX_CLICK_CLIMB - 1) == Some(p);
    }
  }

  /** Following one more parent link is following the parent's chain. */
  lemma AncestorStep(s: Snapshot, i: nat, d: nat)
    requires WellFormed(s) && i < |s| && s[i].parent.Some?
    ensures AncestorAt(s, i, d + 1) == AncestorAt(s, s[i].parent.value, d)
  {
  }

  /**
   * A successful bounded climb stops at depth `d` below the bound: the `d`-th node of the
   * parent chain is the one clicked, and no nearer node of the chain is clickable.
   */
  lemma {:induction false} BoundedClimbDepth(s: Snapshot, i: nat, fuel: nat) returns (d: nat)
    requires WellFormed(s) && i < |s| && BoundedClimb(s, i, fuel).Some?
    ensures d < fuel && ClickableAt(s, i, d) && AncestorAt(s, i, d) == BoundedClimb(s, i, fuel)
    ensures forall e :: 0 <= e < d ==> AncestorAt(s, i, e).Some? && !ClickableAt(s, i, e)
    decreases fuel
  {
    if s[i].clickable {
      d := 0;
    } else {
      var p := s[i].parent.value;
      var e := BoundedClimbDepth(s, p, fuel - 1);
      d := e + 1;
      AncestorStep(s, i, e);
      forall e' | 0 <= e' < d ensures AncestorAt(s, i, e').Some? && !ClickableAt(s, i, e') {
        if e' > 0 { AncestorStep(s, i, e' - 1); }
      }
    }
  }

  /** A failed bounded climb means none of the first `fuel` nodes of the parent chain is clickable. */
  lemma {:induction false} BoundedClimbNone(s: Snapshot, i: nat, fuel: nat)
    requires WellFormed(s) && i < |s| && BoundedClimb(s, i, fuel).None?
    ensures forall d :: 0 <= d < fuel ==> !ClickableAt(s, i, d)
    decreases fuel
  {
    if fuel > 0 && s[i].parent.Some? {
      var p := s[i].parent.value;
      BoundedClimbNone(s, p, fuel - 1);
      forall d | 0 < d < fuel ensures !ClickableAt(s, i, d) {
        AncestorStep(s, i, d - 1);
        assert !ClickableAt(s, p, d - 1);
      }
    }
  }

  /** When the bounded climb succeeds it finds the same node as the unbounded one. */
  lemma {:induction false} BoundedClimbAgrees(s: Snapshot, i: nat, fuel: nat)
    requires WellFormed(s) && i < |s| && BoundedClimb(s, i, fuel).Some?
    ensures BoundedClimb(s, i, fuel) == NearestClickable(s, i)
    decreases fuel
  {
    if !s[i].clickable {
      BoundedClimbAgrees(s, s[i].parent.value, fuel - 1);
    }
  }

  // ------------------------------------------------------------------
  // cleanString
  // ------------------------------------------------------------------

  /** Lower-casing text that has no upper-case letter leaves it unchanged. */
  lemma LowerOfLowerCase(s: string)
    requires forall c :: c in s ==> !IsUpper(c)
    ensures Lower(s) == s
  {
    forall i | 0 <= i < |s| ensures Lower(s)[i] == s[i] {
      assert s[i] in s;
    }
  }

  /** Cleaning is idempotent. */
  lemma CleanStringIdempotent(s: Option<string>)
    ensures CleanString(Some(CleanString(s))) == CleanString(s)
  {
    var c := CleanString(s);
    LowerOfLowerCase(c);
    StripIdempotent(c, ' ');
    StripIdempotent(c, '\n');
    TrimIdempotent(c);
  }

  /** Cleaning ignores letter case. */
  lemma CleanStringIgnoresCase(s: string)
    ensures CleanString(Some(Lower(s))) == CleanString(Some(s))
  {
    LowerIdempotent(s);
  }

  /** Lower-casing commutes with inserting a character that is not an upper-case letter. */
  lemma LowerInsert(a: string, b: string, x: char)
    requires !IsUpper(x)
    ensures Lower(a + [x] + b) == Lower(a) + [x] + Lower(b)
  {
    LowerAppend(a + [x], b);
    LowerAppend(a, [x]);
  }

  /** Cleaning ignores a space or a newline inserted anywhere. */
  lemma CleanStringIgnoresInsertedBlank(s: string, k: nat, blank: char)
    requires k <= |s| && (blank == ' ' || blank == '\n')
    ensures CleanString(Some(s[..k] + [blank] + s[k..])) == CleanString(Some(s))
  {
    var a, b := s[..k], s[k..];
    assert s == a + b;
    LowerInsert(a, b, blank);
    LowerAppend(a, b);
    var la, lb := Lower(a), Lower(b);
    if blank == ' ' {
      StripInsertSelf(la, lb, ' ');
    } else {
      StripInsertOther(la, lb, '\n', ' ');
      StripAppend(la, lb, ' ');
      StripInsertSelf(Strip(la, ' '), Strip(lb, ' '), '\n');
    }
  }

  /** A text whose lower-cased form has no blank and trimmed ends cleans to that form. */
  lemma CleanStringOfWord(s: string, l: string)
    requires Lower(s) == l && ' ' !in l && '\n' !in l
    requires l == [] || (!IsTrimmed(l[0]) && !IsTrimmed(l[|l| - 1]))
    ensures CleanString(Some(s)) == l
  {
    StripIdempotent(l, ' ');
    StripIdempotent(l, '\n');
    TrimIdempotent(l);
  }

  /** "MyGroup" cleans to "mygroup". */
  lemma CleanMyGroup()
    ensures CleanString(Some("MyGroup")) == "mygroup"
  {
    var l := Lower("MyGroup");
    forall i | 0 <= i < 7 ensures l[i] == "mygroup"[i] { }
    CleanStringOfWord("MyGroup", "mygroup");
  }

  /** "My Group" cleans as "MyGroup" does. */
  lemma CleanMySpaceGroup()
    ensures CleanString(Some("My Group")) == "mygroup"
  {
    assert "My Group" == "MyGroup"[..2] + [' '] + "MyGroup"[2..];
    CleanStringIgnoresInsertedBlank("MyGroup", 2, ' ');
    CleanMyGroup();
  }

  /** "My  Group" cleans as "My Group" does. */
  lemma CleanMyDoubleSpaceGroup()
    ensures CleanString(Some("My  Group")) == "mygroup"
  {
    assert "My  Group" == "My Group"[..2] + [' '] + "My Group"[2..];
    CleanStringIgnoresInsertedBlank("My Group", 2, ' ');
    CleanMySpaceGroup();
  }

  lemma LowerMySpaceGroup()
    ensures Lower("My Group") == "my group"
  {
    var l := Lower("My Group");
    assert l[0] == 'm' && l[1] == 'y' && l[2] == ' ' && l[3] == 'g';
    assert l[4] == 'r' && l[5] == 'o' && l[6] == 'u' && l[7] == 'p';
  }

  /** "my group" cleans as "My Group" does. */
  lemma CleanLowerMySpaceGroup()
    ensures CleanString(Some("my group")) == "mygroup"
  {
    LowerMySpaceGroup();
    CleanStringIgnoresCase("My Group");
    CleanMySpaceGroup();
  }

  /** The spellings "My Group", "my group" and "My  Group" of a group name all clean to "mygroup". */
  lemma GroupSpellingsMatch()
    ensures CleanString(Some("My Group")) == "mygroup"
    ensures CleanString(Some("my group")) == "mygroup"
    ensures CleanString(Some("My  Group")) == "mygroup"
  {
    CleanMySpaceGroup();
    CleanLowerMySpaceGroup();
    CleanMyDoubleSpaceGroup();
  }

  // ------------------------------------------------------------------
  // The loops of the service, proved against the functions above
  // ------------------------------------------------------------------

  /** The while loop of recursiveSearchAndClick that climbs to the nearest clickable node. */
  method ClimbToClickable(s: Snapshot, i: nat) returns (r: Option<nat>)
    requires WellFormed(s) && i < |s|
    ensures r == NearestClickable(s, i)
  {
    var clickable: Option<nat> := Some(i);
    while clickable.Some? && !s[clickable.value].clickable
      invariant clickable.Some? ==> clickable.value < |s|
      invariant NearestClickable(s, i) == if clickable.Some? then NearestClickable(s, clickable.value) else None
      decreases if clickable.Some? then clickable.value + 1 else 0
    {
      clickable := s[clickable.value].parent;
    }
    r := clickable;
  }

  /** performClick: climbs at most MAX_CLICK_CLIMB nodes and returns the clickable node it clicks. */
  method PerformClick(s: Snapshot, node: nat) returns (r: Option<nat>)
    requires WellFormed(s) && node < |s|
    ensures r == BoundedClimb(s, node, MAX_CLICK_CLIMB)
  {
    var target: Option<nat> := Some(node);
    var attempts := 0;
    while target.Some? && attempts < MAX_CLICK_CLIMB
      invariant 0 <= attempts <= MAX_CLICK_CLIMB
      invariant target.Some? ==> target.value < |s|
      invariant BoundedClimb(s, node, MAX_CLICK_CLIMB)
        == if target.Some? then BoundedClimb(s, target.value, MAX_CLICK_CLIMB - attempts) else None
      decreases MAX_CLICK_CLIMB - attempts
    {
      if s[target.value].clickable {
        return target;
      }
      target := s[target.value].parent;
      attempts := attempts + 1;
    }
    return None;
  }

  /** recursiveSearchAndClick: the node it would click, found by recursion and the climbing loop. */
  method RecursiveSearchAndClick(s: Snapshot, i: nat, text: string) returns (r: Option<nat>)
    requires WellFormed(s) && i < |s|
    ensures r == SearchClickTarget(s, i, CleanString(Some(text)))
    decreases |s| - i
  {
    var cleanTarget := CleanString(Some(text));
    if TextMatch(s[i], cleanTarget) {
      var clickable := ClimbToClickable(s, i);
      if clickable.Some? {
        return clickable;
      }
    }
    var k := 0;
    while k < |s[i].children|
      invariant k <= |s[i].children|
      invariant Dfs(s, ClickableTextProbe(cleanTarget), i) == DfsChildren(s, ClickableTextProbe(cleanTarget), i, k)
    {
      var found := RecursiveSearchAndClick(s, s[i].children[k], text);
      if found.Some? {
        return found;
      }
      k := k + 1;
    }
    return None;
  }

  /** The for-each loop of findMarkerAndClick over the indexed matches. */
  method ScanIndexedMatches(s: Snapshot, hits: seq<nat>) returns (r: Option<nat>)
    requires WellFormed(s) && AllBelow(hits, |s|)
    ensures r == IndexedClickable(s, hits)
    ensures r.Some? ==> exists k :: 0 <= k < |hits| && hits[k] == r.value && forall j :: 0 <= j < k ==> !SelfOrParentClickable(s, hits[j])
  {
    IndexedClickableIsFirst(s, hits);
    var k := 0;
    while k < |hits|
      invariant k <= |hits|
      invariant IndexedClickable(s, hits) == IndexedClickable(s, hits[k..])
    {
      if SelfOrParentClickable(s, hits[k]) {
        return Some(hits[k]);
      }
      k := k + 1;
    }
    return None;
  }
}

/**
 * A snapshot of the accessibility tree handed to the service on each event.
 * The tree is flattened into a sequence: node 0 is the root of the active window,
 * every node names its parent and its children by index, and parents come before
 * their children, so every walk up or down the tree terminates.
 */
module UiTree {
  import opened Optional

  /** The attributes of one AccessibilityNodeInfo that the service reads. */
  datatype UiNode = UiNode(
    text: Option<string>,
    desc: Option<string>,
    viewId: Option<string>,
    clickable: bool,
    scrollable: bool,
    parent: Option<nat>,
    children: seq<nat>)

  type Snapshot = seq<UiNode>

  /** Parents have smaller indices than their children, and children are in range. */
  predicate WellFormed(s: Snapshot) {
    && (forall i :: 0 <= i < |s| && s[i].parent.Some? ==> s[i].parent.value < i)
    && (forall i, k :: 0 <= i < |s| && 0 <= k < |s[i].children| ==> i < s[i].children[k] < |s|)
  }

  /** Every index in `xs` names a node of a snapshot with `n` nodes. */
  predicate AllBelow(xs: seq<nat>, n: nat) {
    forall j :: 0 <= j < |xs| ==> xs[j] < n
  }

  /** The nodes of the subtree rooted at `i`, in the pre-order a depth-first walk visits them. */
  function PreOrder(s: Snapshot, i: nat): (r: seq<nat>)
    requires WellFormed(s) && i < |s|
    ensures |r| > 0 && r[0] == i
    ensures forall j :: 0 <= j < |r| ==> i <= r[j] < |s|
    decreases |s| - i, |s[i].children| + 1
  {
    [i] + PreOrderChildren(s, i, 0)
  }

  /** The pre-order listings of the children of `i` from the `k`-th on, one after the other. */
  function PreOrderChildren(s: Snapshot, i: nat, k: nat): (r: seq<nat>)
    requires WellFormed(s) && i < |s| && k <= |s[i].children|
    ensures forall j :: 0 <= j < |r| ==> i < r[j] < |s|
    decreases |s| - i, |s[i].children| - k
  {
    if k == |s[i].children| then []
    else PreOrder(s, s[i].children[k]) + PreOrderChildren(s, i, k + 1)
  }

  /** The node reached from `i` by following `d` parent links, if the chain is that long. */
  function AncestorAt(s: Snapshot, i: nat, d: nat): (r: Option<nat>)
    requires WellFormed(s) && i < |s|
    ensures r.Some? ==> r.value <= i
    decreases d
  {
    if d == 0 then Some(i)
    else match s[i].parent
      case None => None
      case Some(p) => AncestorAt(s, p, d - 1)
  }

  /** The `d`-th node on the parent chain of `i` exists and is clickable. */
  predicate ClickableAt(s: Snapshot, i: nat, d: nat)
    requires WellFormed(s) && i < |s|
  {
    AncestorAt(s, i, d).Some? && s[AncestorAt(s, i, d).value].clickable
  }
}

/** Folder rows as a parent graph: chains of parents, what lies below what, and how the graph stays
  * a forest when rows are re-parented. */
module Forest {
  import opened Prelude

  type FolderId = nat
  type ProjectId = nat

  datatype Folder = Folder(project: Option<ProjectId>, parent: Option<FolderId>, name: string,
                           code: string, sortOrder: int, active: bool, systemRoot: bool)

  type Tree = map<FolderId, Folder>

  function Elements(s: seq<FolderId>): set<FolderId> {
    set x | x in s
  }

  function Parent(t: Tree, x: FolderId): Option<FolderId> {
    if x in t then t[x].parent else None
  }

  /** The n-th folder on the way up. */
  function Up(t: Tree, x: Option<FolderId>, n: nat): Option<FolderId>
    decreases n
  {
    if n == 0 || x == None then x else Up(t, Parent(t, x.value), n - 1)
  }

  ghost predicate Closed(t: Tree) {
    forall x <- t :: t[x].parent.Some? ==> t[x].parent.value in t
  }

  ghost predicate Ends(t: Tree, x: Option<FolderId>) {
    exists n: nat :: Up(t, x, n) == None
  }

  /** No dangling parent, and every chain of parents ends at a root. */
  ghost predicate IsForest(t: Tree) {
    Closed(t) && forall x <- t :: Ends(t, Some(x))
  }

  ghost predicate Below(t: Tree, x: FolderId, a: FolderId) {
    exists n: nat :: Up(t, Some(x), n) == Some(a)
  }

  ghost predicate ProperlyBelow(t: Tree, x: FolderId, a: FolderId) {
    exists n: nat :: n > 0 && Up(t, Some(x), n) == Some(a)
  }

  // ---------------------------------------------------------------- chains

  lemma {:induction false} UpAdd(t: Tree, x: Option<FolderId>, m: nat, n: nat)
    ensures Up(t, x, m + n) == Up(t, Up(t, x, m), n)
    decreases m
  {
    if m > 0 && x.Some? {
      UpAdd(t, Parent(t, x.value), m - 1, n);
    }
  }

  lemma UpStays(t: Tree, x: Option<FolderId>, m: nat, n: nat)
    requires m <= n && Up(t, x, m) == None
    ensures Up(t, x, n) == None
  {
    UpAdd(t, x, m, n - m);
  }

  lemma {:induction false} UpInside(t: Tree, x: FolderId, n: nat)
    requires Closed(t) && x in t && Up(t, Some(x), n).Some?
    ensures Up(t, Some(x), n).value in t
    decreases n
  {
    if n > 0 {
      var p := Parent(t, x);
      if p.Some? {
        UpInside(t, p.value, n - 1);
      }
    }
  }

  lemma BelowTransitive(t: Tree, x: FolderId, y: FolderId, z: FolderId)
    requires Below(t, x, y) && Below(t, y, z)
    ensures Below(t, x, z)
  {
    var m: nat :| Up(t, Some(x), m) == Some(y);
    var n: nat :| Up(t, Some(y), n) == Some(z);
    UpAdd(t, Some(x), m, n);
  }

  lemma BelowSelf(t: Tree, x: FolderId)
    ensures Below(t, x, x)
  {
    assert Up(t, Some(x), 0) == Some(x);
  }

  lemma BelowParent(t: Tree, x: FolderId, p: FolderId)
    requires x in t && t[x].parent == Some(p)
    ensures Below(t, x, p)
  {
    assert Up(t, Some(x), 1) == Some(p);
  }

  lemma BelowOrSelf(t: Tree, x: FolderId, a: FolderId)
    ensures Below(t, x, a) <==> x == a || ProperlyBelow(t, x, a)
  {
    BelowSelf(t, x);
    if Below(t, x, a) {
      var n: nat :| Up(t, Some(x), n) == Some(a);
      assert n > 0 || x == a;
    }
    if ProperlyBelow(t, x, a) {
      var n: nat :| n > 0 && Up(t, Some(x), n) == Some(a);
    }
  }

  /** One step up from x, either x is the ancestor or the parent is below it. */
  lemma BelowUnfold(t: Tree, x: FolderId, a: FolderId)
    ensures Below(t, x, a) <==> x == a || (Parent(t, x).Some? && Below(t, Parent(t, x).value, a))
  {
    if Below(t, x, a) {
      var n: nat :| Up(t, Some(x), n) == Some(a);
      if n > 0 {
        assert Up(t, Parent(t, x), n - 1) == Some(a);
      }
    }
    if x == a {
      BelowSelf(t, x);
    } else if Parent(t, x).Some? && Below(t, Parent(t, x).value, a) {
      var n: nat :| Up(t, Parent(t, x), n) == Some(a);
      assert Up(t, Some(x), n + 1) == Some(a);
    }
  }

  lemma {:induction false} UpRepeats(t: Tree, x: FolderId, k: nat, j: nat)
    requires Up(t, Some(x), k) == Some(x)
    ensures Up(t, Some(x), k * j) == Some(x)
    decreases j
  {
    if j > 0 {
      UpRepeats(t, x, k, j - 1);
      UpAdd(t, Some(x), k * (j - 1), k);
      assert k * (j - 1) + k == k * j;
    }
  }

  /** A forest has no cycles. */
  lemma NoCycles(t: Tree, x: FolderId)
    requires IsForest(t) && x in t
    ensures !ProperlyBelow(t, x, x)
  {
    if ProperlyBelow(t, x, x) {
      var k: nat :| k > 0 && Up(t, Some(x), k) == Some(x);
      var n: nat :| Up(t, Some(x), n) == None;
      UpRepeats(t, x, k, n);
      assert k * n >= n;
      UpStays(t, Some(x), n, k * n);
      assert false;
    }
  }

  // ---------------------------------------------------------------- changing parents

  /** Two graphs whose parents agree outside a set of folders. */
  ghost predicate AgreeOutside(t: Tree, u: Tree, moved: set<FolderId>) {
    forall x :: x !in moved ==> Parent(t, x) == Parent(u, x)
  }

  /** A chain that never meets a moved folder is the same in both graphs. */
  lemma {:induction false} UpUnmoved(t: Tree, u: Tree, moved: set<FolderId>, x: Option<FolderId>, n: nat)
    requires AgreeOutside(t, u, moved)
    requires forall m: nat :: m < n && Up(t, x, m).Some? ==> Up(t, x, m).value !in moved
    ensures Up(u, x, n) == Up(t, x, n)
    decreases n
  {
    if n > 0 && x.Some? {
      assert Up(t, x, 0) == x;
      forall m: nat | m < n - 1 && Up(t, Parent(t, x.value), m).Some?
        ensures Up(t, Parent(t, x.value), m).value !in moved {
        assert Up(t, x, m + 1) == Up(t, Parent(t, x.value), m);
      }
      UpUnmoved(t, u, moved, Parent(t, x.value), n - 1);
    }
  }

  ghost predicate ClearOf(t: Tree, x: Option<FolderId>, moved: set<FolderId>) {
    forall n: nat :: Up(t, x, n).Some? ==> Up(t, x, n).value !in moved
  }

  lemma EndsUnmoved(t: Tree, u: Tree, moved: set<FolderId>, x: Option<FolderId>)
    requires AgreeOutside(t, u, moved) && ClearOf(t, x, moved) && Ends(t, x)
    ensures Ends(u, x)
  {
    var n: nat :| Up(t, x, n) == None;
    UpUnmoved(t, u, moved, x, n);
  }

  lemma EndsStep(t: Tree, x: FolderId)
    requires Ends(t, Parent(t, x))
    ensures Ends(t, Some(x))
  {
    var n: nat :| Up(t, Parent(t, x), n) == None;
    assert Up(t, Some(x), n + 1) == None;
  }

  lemma {:induction false} EndsMoved(t: Tree, u: Tree, moved: set<FolderId>, target: Option<FolderId>, x: FolderId, n: nat)
    requires AgreeOutside(t, u, moved) && Ends(u, target)
    requires forall f <- moved :: Parent(u, f) == target
    requires Up(t, Some(x), n) == None
    ensures Ends(u, Some(x))
    decreases n
  {
    if x in moved {
      EndsStep(u, x);
    } else {
      var p := Parent(t, x);
      if p.Some? {
        EndsMoved(t, u, moved, target, p.value, n - 1);
      } else {
        assert Up(u, None, 0) == None;
      }
      EndsStep(u, x);
    }
  }

  /** Re-parenting any set of folders to one target keeps a forest a forest, as long as the way up
    * from the target meets none of them. Creating a leaf and removing a leaf are instances. */
  lemma ReparentKeepsForest(t: Tree, u: Tree, moved: set<FolderId>, target: Option<FolderId>)
    requires IsForest(t) && AgreeOutside(t, u, moved) && Closed(u)
    requires forall f <- moved :: Parent(u, f) == target
    requires target.Some? ==> target.value in t && ClearOf(t, target, moved)
    ensures IsForest(u)
  {
    if target.Some? {
      EndsUnmoved(t, u, moved, target);
    } else {
      assert Up(u, None, 0) == None;
    }
    forall x | x in u ensures Ends(u, Some(x)) {
      if x in t {
        var n: nat :| Up(t, Some(x), n) == None;
        EndsMoved(t, u, moved, target, x, n);
      } else {
        assert Up(t, Some(x), 1) == None;
        EndsMoved(t, u, moved, target, x, 1);
      }
    }
  }

  /** What the check before a move has to establish. */
  lemma NotBelowIsClear(t: Tree, c: FolderId, f: FolderId)
    requires !Below(t, c, f)
    ensures ClearOf(t, Some(c), {f})
  {
  }

  /** Moving a folder below one of its own descendants, in contrast, makes a cycle. */
  lemma MoveBelowMakesCycle(t: Tree, u: Tree, f: FolderId, c: FolderId)
    requires f in t && Below(t, c, f) && AgreeOutside(t, u, {f}) && Parent(u, f) == Some(c)
    ensures ProperlyBelow(u, f, f)
  {
    var n := FirstReach(t, c, f);
    UpUnmoved(t, u, {f}, Some(c), n);
    assert Up(u, Some(f), n + 1) == Some(f);
  }

  lemma {:induction false} FirstReach(t: Tree, x: FolderId, a: FolderId) returns (n: nat)
    requires Below(t, x, a)
    ensures Up(t, Some(x), n) == Some(a)
    ensures forall m: nat :: m < n ==> Up(t, Some(x), m) != Some(a)
  {
    var bound: nat :| Up(t, Some(x), bound) == Some(a);
    n := 0;
    while Up(t, Some(x), n) != Some(a)
      invariant n <= bound
      invariant forall m: nat :: m < n ==> Up(t, Some(x), m) != Some(a)
      decreases bound - n
    {
      n := n + 1;
    }
  }

  // ---------------------------------------------------------------- walking up

  /** `_is_descendant`: the loop over `current`, which ends because chains do. */
  method IsDescendant(t: Tree, candidate: FolderId, ancestor: FolderId) returns (found: bool)
    requires IsForest(t) && candidate in t
    ensures found <==> ProperlyBelow(t, candidate, ancestor)
  {
    var current := Some(candidate);
    ghost var height: nat :| Up(t, Some(candidate), height) == None;
    ghost var climbed: nat := 0;
    while current.Some? && t[current.value].parent.Some?
      invariant current == Up(t, Some(candidate), climbed) && climbed <= height
      invariant current.Some? ==> current.value in t
      invariant forall n: nat :: 0 < n <= climbed ==> Up(t, Some(candidate), n) != Some(ancestor)
      decreases height - climbed
    {
      var parent := t[current.value].parent;
      UpAdd(t, Some(candidate), climbed, 1);
      assert Up(t, current, 1) == Up(t, parent, 0) == parent;
      if parent.value == ancestor {
        assert Up(t, Some(candidate), climbed + 1) == Some(ancestor);
        return true;
      }
      if climbed == height {
        assert false;
      }
      current := parent;
      climbed := climbed + 1;
    }
    forall n: nat | n > climbed ensures Up(t, Some(candidate), n) != Some(ancestor) {
      UpAdd(t, Some(candidate), climbed, n - climbed);
      assert Up(t, current, 1) == None;
      UpStays(t, current, 1, n - climbed);
    }
    return false;
  }
}

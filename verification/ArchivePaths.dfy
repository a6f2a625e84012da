/** Paths of folders inside an archive: a memoised walk to the root that also ends on cycles. */
module ArchivePaths {
  import opened Prelude
  import opened ArchiveNames

  type Id = nat

  // `project` is the label of the project the folder belongs to.
  datatype Row = Row(name: string, parent: Option<Id>, project: Option<string>)

  type Rows = map<Id, Row>

  const UNNAMED := "未命名"
  const PROJECT_FALLBACK := "项目资料"
  const ROOT_FALLBACK := "资料目录"

  function RootPath(rows: Rows, root: Id): string
    requires root in rows
  {
    SafeComponent(rows[root].name, ROOT_FALLBACK)
  }

  /** What a folder without a listed parent adds below the root. */
  function TopComponent(row: Row): string {
    if row.project.Some? then SafeComponent(row.project.value, PROJECT_FALLBACK) else SafeComponent(row.name, UNNAMED)
  }

  /** The path by the definition: names of the listed ancestors up to the root, or up to a folder
    * without a listed parent. It is undefined on a cycle. */
  function PathAt(rows: Rows, root: Id, x: Id, n: nat): Option<string>
    requires root in rows
    decreases n
  {
    if x !in rows then None
    else if x == root then Some(RootPath(rows, root))
    else
      var parent := rows[x].parent;
      if parent.Some? && parent.value in rows then
        if n == 0 then None
        else
          var above := PathAt(rows, root, parent.value, n - 1);
          if above.Some? then Some(above.value + "/" + SafeComponent(rows[x].name, UNNAMED)) else None
      else Some(RootPath(rows, root) + "/" + TopComponent(rows[x]))
  }

  lemma {:induction false} PathIsOne(rows: Rows, root: Id, x: Id, m: nat, n: nat)
    requires root in rows && m <= n && PathAt(rows, root, x, m).Some?
    ensures PathAt(rows, root, x, n) == PathAt(rows, root, x, m)
    decreases m
  {
    if x != root && rows[x].parent.Some? && rows[x].parent.value in rows {
      PathIsOne(rows, root, rows[x].parent.value, m - 1, n - 1);
    }
  }

  // ---------------------------------------------------------------- safe paths

  function Joined(components: seq<string>): string {
    if components == [] then "" else Joined(components[..|components| - 1]) + "/" + components[|components| - 1]
  }

  ghost predicate UnderRoot(path: string, top: string, components: seq<string>) {
    path == top + Joined(components) && forall i :: 0 <= i < |components| ==> Safe(components[i])
  }

  /** The root path, followed by slashes and safe names. */
  ghost predicate StartsAtRoot(rows: Rows, root: Id, path: string)
    requires root in rows
  {
    exists components :: UnderRoot(path, RootPath(rows, root), components)
  }

  lemma RootItself(rows: Rows, root: Id)
    requires root in rows
    ensures StartsAtRoot(rows, root, RootPath(rows, root))
  {
    assert RootPath(rows, root) + Joined([]) == RootPath(rows, root);
    assert UnderRoot(RootPath(rows, root), RootPath(rows, root), []);
  }

  lemma JoinedMore(components: seq<string>, component: string)
    ensures Joined(components + [component]) == Joined(components) + "/" + component
  {
    var more := components + [component];
    assert more[..|more| - 1] == components;
  }

  lemma Regrouped(a: string, b: string, c: string, d: string)
    ensures (a + b) + c + d == a + (b + c + d)
  {
  }

  lemma OneBelow(rows: Rows, root: Id, path: string, component: string)
    requires root in rows && StartsAtRoot(rows, root, path) && Safe(component)
    ensures StartsAtRoot(rows, root, path + "/" + component)
  {
    var top := RootPath(rows, root);
    var components :| UnderRoot(path, top, components);
    JoinedMore(components, component);
    Regrouped(top, Joined(components), "/", component);
    assert UnderRoot(path + "/" + component, top, components + [component]);
  }

  lemma FallbacksAreSafe()
    ensures Safe(UNNAMED) && Safe(PROJECT_FALLBACK) && Safe(ROOT_FALLBACK)
  {
  }

  lemma ComponentsAreSafe(row: Row)
    ensures Safe(SafeComponent(row.name, UNNAMED)) && Safe(TopComponent(row))
  {
    FallbacksAreSafe();
    ComponentIsSafe(row.name, UNNAMED);
    if row.project.Some? {
      ComponentIsSafe(row.project.value, PROJECT_FALLBACK);
    }
  }

  // ---------------------------------------------------------------- the memoised walk

  // ---------------------------------------------------------------- what resolving keeps

  ghost predicate IsPathOf(rows: Rows, root: Id, x: Id, path: string)
    requires root in rows
  {
    StartsAtRoot(rows, root, path) && forall n :: PathAt(rows, root, x, n).Some? ==> PathAt(rows, root, x, n).value == path
  }

  ghost predicate AllWaitFor(rows: Rows, root: Id, resolving: set<Id>, x: Id)
    requires root in rows
  {
    forall y, n: nat :: y in resolving && PathAt(rows, root, y, n).Some? ==> n > 0 && PathAt(rows, root, x, n - 1).Some?
  }

  /** Where a folder's path is defined, its parent's is, one step earlier. */
  lemma PathFromParent(rows: Rows, root: Id, x: Id, parent: Id, n: nat)
    requires root in rows && x in rows && x != root && rows[x].parent == Some(parent) && parent in rows
    requires PathAt(rows, root, x, n).Some?
    ensures n > 0 && PathAt(rows, root, parent, n - 1).Some?
    ensures PathAt(rows, root, x, n).value
            == PathAt(rows, root, parent, n - 1).value + "/" + SafeComponent(rows[x].name, UNNAMED)
  {
  }

  lemma ParentWaits(rows: Rows, root: Id, resolving: set<Id>, x: Id, parent: Id)
    requires root in rows && x in rows && x != root && rows[x].parent == Some(parent) && parent in rows
    requires AllWaitFor(rows, root, resolving, x)
    ensures AllWaitFor(rows, root, resolving + {x}, parent)
  {
    forall y, n: nat | y in resolving + {x} && PathAt(rows, root, y, n).Some?
      ensures n > 0 && PathAt(rows, root, parent, n - 1).Some? {
      if y == x {
        PathFromParent(rows, root, x, parent, n);
      } else {
        PathFromParent(rows, root, x, parent, n - 1);
        PathIsOne(rows, root, parent, n - 2, n - 1);
      }
    }
  }

  lemma CorrectBelow(rows: Rows, root: Id, x: Id, parent: Id, above: string)
    requires root in rows && x in rows && x != root && rows[x].parent == Some(parent) && parent in rows
    requires IsPathOf(rows, root, parent, above)
    ensures IsPathOf(rows, root, x, above + "/" + SafeComponent(rows[x].name, UNNAMED))
  {
    ComponentsAreSafe(rows[x]);
    OneBelow(rows, root, above, SafeComponent(rows[x].name, UNNAMED));
    forall n | PathAt(rows, root, x, n).Some?
      ensures PathAt(rows, root, x, n).value == above + "/" + SafeComponent(rows[x].name, UNNAMED) {
      PathFromParent(rows, root, x, parent, n);
    }
  }

  lemma CorrectAtTop(rows: Rows, root: Id, x: Id)
    requires root in rows && x in rows && x != root && (rows[x].parent.Some? ==> rows[x].parent.value !in rows)
    ensures IsPathOf(rows, root, x, RootPath(rows, root) + "/" + TopComponent(rows[x]))
  {
    ComponentsAreSafe(rows[x]);
    RootItself(rows, root);
    OneBelow(rows, root, RootPath(rows, root), TopComponent(rows[x]));
  }

  class Resolver {
    const rows: Rows
    const root: Id
    var resolved: map<Id, string>
    var resolving: set<Id>

    ghost predicate Valid()
      reads this
    {
      && root in rows && root in resolved && resolving <= rows.Keys && root !in resolving
      && forall x <- resolved :: Correct(x, resolved[x])
    }

    /** A path starts at the root, and is the defined one where one is defined. */
    ghost predicate Correct(x: Id, path: string)
      requires root in rows
    {
      IsPathOf(rows, root, x, path)
    }

    /** Every folder being resolved waits for x: its path is defined only if x's is, one step earlier. */
    ghost predicate WaitsFor(x: Id)
      requires root in rows
      reads this
    {
      AllWaitFor(rows, root, resolving, x)
    }

    constructor (rows: Rows, root: Id)
      requires root in rows
      ensures Valid() && this.rows == rows && this.root == root && resolving == {}
    {
      this.rows, this.root := rows, root;
      resolved, resolving := map[root := RootPath(rows, root)], {};
      new;
      RootItself(rows, root);
    }

    /** A folder that waits for itself has no defined path. */
    lemma {:induction false} OnCycle(x: Id, n: nat)
      requires root in rows && x in resolving && WaitsFor(x)
      ensures PathAt(rows, root, x, n) == None
      decreases n
    {
      if PathAt(rows, root, x, n).Some? {
        OnCycle(x, n - 1);
      }
    }

    method Resolve(x: Id) returns (path: string)
      requires Valid() && x in rows && WaitsFor(x)
      modifies this
      ensures Valid() && resolving == old(resolving)
      ensures Correct(x, path)
      ensures old(resolved.Keys) <= resolved.Keys && (x !in old(resolving) ==> x in resolved)
      ensures forall y <- old(resolved) :: resolved[y] == old(resolved[y])
      decreases rows.Keys - resolving
    {
      if x in resolved {
        return resolved[x];
      }
      if x in resolving {
        forall n ensures PathAt(rows, root, x, n) == None {
          OnCycle(x, n);
        }
        RootItself(rows, root);
        return RootPath(rows, root);
      }
      var parent := rows[x].parent;
      if parent.Some? && parent.value in rows {
        path := ResolveBelow(x, parent.value);
      } else {
        path := RootPath(rows, root) + "/" + TopComponent(rows[x]);
        CorrectAtTop(rows, root, x);
      }
      resolved := resolved[x := path];
    }

    method ResolveBelow(x: Id, parent: Id) returns (path: string)
      requires Valid() && x in rows && WaitsFor(x) && x !in resolving && x !in resolved
      requires rows[x].parent == Some(parent) && parent in rows
      modifies this
      ensures Valid() && resolving == old(resolving)
      ensures Correct(x, path)
      ensures old(resolved.Keys) <= resolved.Keys
      ensures forall y <- old(resolved) :: resolved[y] == old(resolved[y])
      decreases rows.Keys - resolving, 0
    {
      ParentWaits(rows, root, resolving, x, parent);
      resolving := resolving + {x};
      var above := Resolve(parent);
      resolving := resolving - {x};
      path := above + "/" + SafeComponent(rows[x].name, UNNAMED);
      CorrectBelow(rows, root, x, parent, above);
    }

    /** Every listed folder gets a path that starts at the root, and the defined one unless its
      * ancestors run into a cycle. */
    method ResolveAll(folders: seq<Id>)
      requires Valid() && resolving == {} && forall x <- folders :: x in rows
      modifies this
      ensures Valid() && resolving == {} && forall x <- folders :: x in resolved && Correct(x, resolved[x])
    {
      for i := 0 to |folders|
        invariant Valid() && resolving == {}
        invariant forall k :: 0 <= k < i ==> folders[k] in resolved
      {
        var path := Resolve(folders[i]);
      }
    }
  }
}

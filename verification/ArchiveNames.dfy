/** Names inside a downloaded archive: safe components, folder paths, and the counter that keeps
  * entries apart. */
module ArchiveNames {
  import opened Numerals
  import opened Text

  // ---------------------------------------------------------------- one component

  predicate Forbidden(c: char) {
    c < ' ' || c in "<>:\"/\\|?*"
  }

  predicate AtEdge(c: char) {
    c == ' ' || c == '.'
  }

  function Replaced(s: string): (r: string)
    ensures |r| == |s| && forall i :: 0 <= i < |s| ==> r[i] == if Forbidden(s[i]) then '_' else s[i]
  {
    seq(|s|, i requires 0 <= i < |s| => if Forbidden(s[i]) then '_' else s[i])
  }

  function Trimmed(s: string): string {
    DropRight(DropLeft(s, AtEdge), AtEdge)
  }

  function SafeComponent(value: string, fallback: string): string {
    var component := Trimmed(Replaced(value));
    if component in ["", ".", ".."] then fallback else component
  }

  /** What may stand between two slashes. */
  predicate Safe(s: string) {
    && s != "" && !AtEdge(s[0]) && !AtEdge(s[|s| - 1])
    && forall i :: 0 <= i < |s| ==> !Forbidden(s[i])
  }

  lemma TrimmedIsClean(s: string)
    requires forall i :: 0 <= i < |s| ==> !Forbidden(s[i])
    ensures Trimmed(s) == "" || Safe(Trimmed(s))
  {
    var r := Trimmed(s);
    DropCuts(s, AtEdge);
    var i, j :| 0 <= i <= j <= |s| && s[i..j] == r;
    PartIsAllowed(s, i, j);
  }

  lemma PartIsAllowed(s: string, i: nat, j: nat)
    requires i <= j <= |s| && forall k :: 0 <= k < |s| ==> !Forbidden(s[k])
    ensures forall k :: 0 <= k < j - i ==> !Forbidden(s[i..j][k])
  {
    forall k | 0 <= k < j - i ensures !Forbidden(s[i..j][k]) {
      assert s[i..j][k] == s[i + k];
    }
  }

  /** A component is safe, and a name that is safe already stays as it is. */
  lemma ComponentIsSafe(value: string, fallback: string)
    requires Safe(fallback)
    ensures Safe(SafeComponent(value, fallback))
    ensures Safe(value) ==> SafeComponent(value, fallback) == value
  {
    TrimmedIsClean(Replaced(value));
    if Safe(value) {
      assert Replaced(value) == value;
      DropIsFixed(value, AtEdge);
    }
  }

  // ---------------------------------------------------------------- stem and suffix

  function LastDot(name: string): (i: int)
    ensures -1 <= i < |name|
    ensures i >= 0 ==> name[i] == '.'
    ensures forall j :: i < j < |name| ==> name[j] != '.'
  {
    if name == "" then -1
    else if name[|name| - 1] == '.' then |name| - 1
    else LastDot(name[..|name| - 1])
  }

  /** A leading or trailing dot does not start a suffix. */
  function SuffixStart(name: string): (i: nat)
    ensures i <= |name|
  {
    var dot := LastDot(name);
    if 0 < dot < |name| - 1 then dot else |name|
  }

  function Stem(name: string): string {
    name[..SuffixStart(name)]
  }

  function Suffix(name: string): string {
    name[SuffixStart(name)..]
  }

  function Numbered(stem: string, n: nat, suffix: string): string {
    stem + " (" + Decimal(n) + ")" + suffix
  }

  lemma NumberedIsSafe(name: string, n: nat)
    requires Safe(name)
    ensures Safe(Numbered(Stem(name), n, Suffix(name)))
  {
    var s := Numbered(Stem(name), n, Suffix(name));
    var k := SuffixStart(name);
    DecimalDigits(n);
    assert s[0] == name[0];
    forall i | 0 <= i < |s| ensures !Forbidden(s[i]) {
      var d := |Decimal(n)|;
      if i < k {
        assert s[i] == name[i];
      } else if i < k + 2 {
        assert s[i] == " ("[i - k];
      } else if i < k + 2 + d {
        assert s[i] == Decimal(n)[i - k - 2];
      } else if i == k + 2 + d {
        assert s[i] == ')';
      } else {
        assert s[i] == name[i - d - 3];
      }
    }
    assert s[|s| - 1] == if k == |name| then ')' else name[|name| - 1];
  }

  // ---------------------------------------------------------------- the counter

  /** Case folding goes character by character, and leaves digits alone. */
  ghost predicate KeepsDigits(fold: char -> string) {
    forall c :: IsDigit(c) ==> fold(c) == [c]
  }

  function Fold(fold: char -> string, s: string): string {
    if s == "" then "" else fold(s[0]) + Fold(fold, s[1..])
  }

  lemma {:induction false} FoldAppend(fold: char -> string, s: string, r: string)
    ensures Fold(fold, s + r) == Fold(fold, s) + Fold(fold, r)
  {
    if s == "" {
      assert s + r == r;
    } else {
      assert (s + r)[1..] == s[1..] + r;
      FoldAppend(fold, s[1..], r);
    }
  }

  lemma {:induction false} FoldDigits(fold: char -> string, s: string)
    requires KeepsDigits(fold) && forall i :: 0 <= i < |s| ==> IsDigit(s[i])
    ensures Fold(fold, s) == s
  {
    if s != "" {
      FoldDigits(fold, s[1..]);
    }
  }

  /** Different counters give entries that stay different when case is ignored. */
  lemma NumberedApart(fold: char -> string, directory: string, stem: string, suffix: string, m: nat, n: nat)
    requires KeepsDigits(fold)
    requires Fold(fold, directory + Numbered(stem, m, suffix)) == Fold(fold, directory + Numbered(stem, n, suffix))
    ensures m == n
  {
    var head := directory + stem + " (";
    var tail := ")" + suffix;
    forall k: nat ensures Fold(fold, directory + Numbered(stem, k, suffix)) == Fold(fold, head) + Decimal(k) + Fold(fold, tail) {
      assert directory + Numbered(stem, k, suffix) == (head + Decimal(k)) + tail;
      FoldAppend(fold, head + Decimal(k), tail);
      FoldAppend(fold, head, Decimal(k));
      DecimalDigits(k);
      FoldDigits(fold, Decimal(k));
    }
    var a, b := Fold(fold, head), Fold(fold, tail);
    var whole := a + Decimal(m) + b;
    assert whole == a + Decimal(n) + b;
    assert whole[|a|..|whole| - |b|] == Decimal(m);
    assert whole[|a|..|whole| - |b|] == Decimal(n);
    DecimalInjective(m, n);
  }

  ghost predicate Taken(fold: char -> string, directory: string, stem: string, suffix: string, used: set<string>, n: nat) {
    forall k :: 2 <= k < n ==> Fold(fold, directory + Numbered(stem, k, suffix)) in used
  }

  /** The counter loop: it ends for any finite set of names in use, on the first free counter. */
  method FirstFree(fold: char -> string, directory: string, stem: string, suffix: string, used: set<string>)
      returns (n: nat)
    requires KeepsDigits(fold)
    ensures n >= 2 && Fold(fold, directory + Numbered(stem, n, suffix)) !in used
    ensures Taken(fold, directory, stem, suffix, used, n)
  {
    n := 2;
    ghost var tried: set<string> := {};
    while Fold(fold, directory + Numbered(stem, n, suffix)) in used
      invariant n >= 2 && tried <= used && Taken(fold, directory, stem, suffix, used, n)
      invariant forall name <- tried ::
                  exists k :: 2 <= k < n && name == Fold(fold, directory + Numbered(stem, k, suffix))
      decreases used - tried
    {
      ghost var name := Fold(fold, directory + Numbered(stem, n, suffix));
      if name in tried {
        ghost var k :| 2 <= k < n && name == Fold(fold, directory + Numbered(stem, k, suffix));
        NumberedApart(fold, directory, stem, suffix, k, n);
        assert false;
      }
      tried := tried + {name};
      n := n + 1;
    }
  }

  predicate FiledIn(path: string, directory: string) {
    |path| >= |directory| && path[..|directory|] == directory && Safe(path[|directory|..])
  }

  /** `_unique_archive_path`, with the directory's slash in `directory`. */
  method UniqueArchivePath(fold: char -> string, directory: string, filename: string, used: set<string>)
      returns (path: string, after: set<string>)
    requires KeepsDigits(fold)
    ensures Fold(fold, path) !in used && after == used + {Fold(fold, path)}
    ensures FiledIn(path, directory)
    ensures Fold(fold, directory + SafeComponent(filename, "document")) !in used ==>
              path == directory + SafeComponent(filename, "document")
  {
    var name := SafeComponent(filename, "document");
    ComponentIsSafe(filename, "document");
    path := directory + name;
    if Fold(fold, path) in used {
      var n := FirstFree(fold, directory, Stem(name), Suffix(name), used);
      NumberedIsSafe(name, n);
      path := directory + Numbered(Stem(name), n, Suffix(name));
    }
    after := used + {Fold(fold, path)};
  }

  datatype Entry = Entry(directory: string, filename: string)

  ghost predicate Apart(fold: char -> string, paths: seq<string>) {
    forall i, j :: 0 <= i < j < |paths| ==> Fold(fold, paths[i]) != Fold(fold, paths[j])
  }

  ghost predicate InUse(fold: char -> string, paths: seq<string>, used: set<string>) {
    forall i :: 0 <= i < |paths| ==> Fold(fold, paths[i]) in used
  }

  /** The first entries, each in its directory under a safe name. */
  predicate AllFiled(paths: seq<string>, entries: seq<Entry>) {
    |paths| <= |entries| && forall i :: 0 <= i < |paths| ==> FiledIn(paths[i], entries[i].directory)
  }

  lemma OneMore(fold: char -> string, paths: seq<string>, used: set<string>, path: string)
    requires Apart(fold, paths) && InUse(fold, paths, used) && Fold(fold, path) !in used
    ensures Apart(fold, paths + [path]) && InUse(fold, paths + [path], used + {Fold(fold, path)})
  {
  }

  lemma OneMoreFiled(paths: seq<string>, entries: seq<Entry>, path: string)
    requires AllFiled(paths, entries) && |paths| < |entries| && FiledIn(path, entries[|paths|].directory)
    ensures AllFiled(paths + [path], entries)
  {
  }

  /** All entries of one archive: pairwise distinct when case is ignored, each a safe name in its
    * directory. */
  method ArchivePaths(fold: char -> string, entries: seq<Entry>) returns (paths: seq<string>)
    requires KeepsDigits(fold)
    ensures Apart(fold, paths) && |paths| == |entries| && AllFiled(paths, entries)
  {
    paths := [];
    var used: set<string> := {};
    for i := 0 to |entries|
      invariant Apart(fold, paths) && InUse(fold, paths, used) && |paths| == i && AllFiled(paths, entries)
    {
      var path, after := UniqueArchivePath(fold, entries[i].directory, entries[i].filename, used);
      OneMore(fold, paths, used, path);
      OneMoreFiled(paths, entries, path);
      paths := paths + [path];
      used := after;
    }
  }

  // ---------------------------------------------------------------- the plain batch download

  function AsIs(c: char): string {
    [c]
  }

  lemma {:induction false} FoldAsIs(s: string)
    ensures Fold(AsIs, s) == s
  {
    if s != "" {
      FoldAsIs(s[1..]);
    }
  }

  /** The last path component that is neither empty nor a dot. */
  function BaseName(path: string, rest: string): string
    decreases |path|
  {
    if path == "" then (if rest == "." then "" else rest)
    else if path[|path| - 1] == '/' then
      (if rest == "" || rest == "." then BaseName(path[..|path| - 1], "") else rest)
    else BaseName(path[..|path| - 1], [path[|path| - 1]] + rest)
  }

  method UniqueArchiveName(filename: string, used: set<string>) returns (name: string, after: set<string>)
    ensures name !in used && after == used + {name}
    ensures var base := if BaseName(filename, "") == "" then "document" else BaseName(filename, "");
            && (base !in used ==> name == base)
            && (base in used ==>
                  exists n :: n >= 2 && name == Numbered(Stem(base), n, Suffix(base))
                              && forall k :: 2 <= k < n ==> Numbered(Stem(base), k, Suffix(base)) in used)
  {
    var base := BaseName(filename, "");
    if base == "" {
      base := "document";
    }
    name := base;
    if base in used {
      var stem, suffix := Stem(base), Suffix(base);
      var n := FirstFree(AsIs, "", stem, suffix, used);
      name := Numbered(stem, n, suffix);
      forall k | 2 <= k <= n ensures Fold(AsIs, "" + Numbered(stem, k, suffix)) == Numbered(stem, k, suffix) {
        FoldAsIs(Numbered(stem, k, suffix));
        assert "" + Numbered(stem, k, suffix) == Numbered(stem, k, suffix);
      }
    }
    after := used + {name};
  }

  method BatchNames(filenames: seq<string>) returns (names: seq<string>)
    ensures |names| == |filenames| && forall i, j :: 0 <= i < j < |names| ==> names[i] != names[j]
  {
    names := [];
    var used: set<string> := {};
    for i := 0 to |filenames|
      invariant |names| == i && forall k :: 0 <= k < i ==> names[k] in used
      invariant forall k, j :: 0 <= k < j < i ==> names[k] != names[j]
    {
      var name, after := UniqueArchiveName(filenames[i], used);
      names := names + [name];
      used := after;
    }
  }
}

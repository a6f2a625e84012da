/** Relative paths of stored files: which are accepted, and where they lead. */
module StoragePaths {
  import opened Prelude

  function Forward(s: string): (r: string)
    ensures |r| == |s| && forall i :: 0 <= i < |s| ==> r[i] == if s[i] == '\\' then '/' else s[i]
  {
    seq(|s|, i requires 0 <= i < |s| => if s[i] == '\\' then '/' else s[i])
  }

  /** str.split("/"): never empty. */
  function Split(s: string): (r: seq<string>)
    ensures |r| > 0
  {
    if s == "" then [""]
    else
      var rest := Split(s[1..]);
      if s[0] == '/' then [""] + rest else [[s[0]] + rest[0]] + rest[1..]
  }

  function Join(parts: seq<string>): string
    requires |parts| > 0
  {
    if |parts| == 1 then parts[0] else parts[0] + "/" + Join(parts[1..])
  }

  lemma SplitStep(c: char, s: string)
    requires Join(Split(s)) == s && forall i :: 0 <= i < |Split(s)| ==> '/' !in Split(s)[i]
    ensures var r := Split([c] + s); Join(r) == [c] + s && forall i :: 0 <= i < |r| ==> '/' !in r[i]
  {
    var rest := Split(s);
    var r := Split([c] + s);
    assert ([c] + s)[1..] == s;
    assert r[1..] == if c == '/' then rest else rest[1..];
  }

  lemma {:induction false} JoinUndoesSplit(s: string)
    ensures Join(Split(s)) == s
    ensures forall i :: 0 <= i < |Split(s)| ==> '/' !in Split(s)[i]
  {
    if s != "" {
      JoinUndoesSplit(s[1..]);
      SplitStep(s[0], s[1..]);
      assert s == [s[0]] + s[1..];
    }
  }

  lemma {:induction false} SplitUndoesJoin(parts: seq<string>)
    requires |parts| > 0 && forall i :: 0 <= i < |parts| ==> '/' !in parts[i]
    ensures Split(Join(parts)) == parts
    decreases |parts|, |parts[0]|
  {
    var s := Join(parts);
    if parts[0] == "" {
      if |parts| > 1 {
        assert s[0] == '/' && s[1..] == Join(parts[1..]);
        SplitUndoesJoin(parts[1..]);
      }
    } else {
      assert parts[0][0] in parts[0];
      var shorter := [parts[0][1..]] + parts[1..];
      assert s[1..] == Join(shorter) by {
        assert shorter[1..] == parts[1..];
      }
      SplitUndoesJoin(shorter);
      assert parts[0] == [parts[0][0]] + parts[0][1..];
    }
  }

  predicate Refused(part: string) {
    part in ["", ".", ".."]
  }

  function Canonical(path: string): Option<string> {
    var normalized := Forward(path);
    var parts := Split(normalized);
    if normalized == "" || normalized[0] == '/' || (exists i :: 0 <= i < |parts| && Refused(parts[i]))
       || ':' in parts[0] || '\0' in normalized then None
    else Some(Join(parts))
  }

  /** A path is accepted exactly when, read with forward slashes, all its parts are names and its first
    * part holds no drive; it then stands for those very parts. */
  lemma CanonicalIs(path: string, parts: seq<string>)
    requires |parts| > 0
    ensures (Canonical(path).Some? && Split(Canonical(path).value) == parts)
            <==> (Forward(path) == Join(parts) && ':' !in parts[0] && '\0' !in Join(parts)
                  && forall i :: 0 <= i < |parts| ==> '/' !in parts[i] && !Refused(parts[i]))
  {
    var normalized := Forward(path);
    JoinUndoesSplit(normalized);
    if normalized == Join(parts) && forall i :: 0 <= i < |parts| ==> '/' !in parts[i] && !Refused(parts[i]) {
      SplitUndoesJoin(parts);
      assert parts[0] != "" && parts[0][0] in parts[0];
      assert normalized[0] == parts[0][0];
    }
  }

  /** Canonical paths are their own canonical form, and no two of them differ only in slashes. */
  lemma CanonicalIsFixed(path: string)
    requires Canonical(path).Some?
    ensures Canonical(Canonical(path).value) == Canonical(path)
    ensures Canonical(path).value == Forward(path)
  {
    JoinUndoesSplit(Forward(path));
    assert Forward(Forward(path)) == Forward(path);
  }

  // ---------------------------------------------------------------- where a path leads

  /** Following the parts from a directory, given as the list of names below the storage root; two dots
    * go up, also past the root. */
  function Follow(at: Option<seq<string>>, parts: seq<string>): Option<seq<string>>
    decreases |parts|
  {
    if parts == [] || at == None then at
    else
      var next :=
        if parts[0] == "" || parts[0] == "." then at
        else if parts[0] == ".." then (if at.value == [] then None else Some(at.value[..|at.value| - 1]))
        else Some(at.value + [parts[0]]);
      Follow(next, parts[1..])
  }

  lemma {:induction false} NamesGoDown(at: seq<string>, parts: seq<string>)
    requires forall i :: 0 <= i < |parts| ==> !Refused(parts[i])
    ensures Follow(Some(at), parts) == Some(at + parts)
    decreases |parts|
  {
    if parts == [] {
      assert at + parts == at;
    } else {
      assert !Refused(parts[0]);
      assert at + parts == (at + [parts[0]]) + parts[1..];
      NamesGoDown(at + [parts[0]], parts[1..]);
    }
  }

  /** An accepted path stays below the storage root and determines its place there. */
  lemma AcceptedStaysInside(path: string, other: string)
    requires Canonical(path).Some? && Canonical(other).Some?
    ensures Follow(Some([]), Split(Canonical(path).value)) == Some(Split(Canonical(path).value))
    ensures Follow(Some([]), Split(Canonical(path).value)) == Follow(Some([]), Split(Canonical(other).value))
            ==> Canonical(path) == Canonical(other)
  {
    CanonicalIsFixed(path);
    CanonicalIsFixed(other);
    JoinUndoesSplit(Forward(path));
    JoinUndoesSplit(Forward(other));
    NamesGoDown([], Split(Forward(path)));
    NamesGoDown([], Split(Forward(other)));
    assert [] + Split(Forward(path)) == Split(Forward(path));
    assert [] + Split(Forward(other)) == Split(Forward(other));
  }

  // ---------------------------------------------------------------- generated paths

  predicate Hex(s: string) {
    forall i :: 0 <= i < |s| ==> s[i] in "0123456789abcdef"
  }

  function BuiltPath(digest: string, token: string): string
    requires |digest| >= 4
  {
    digest[..2] + "/" + digest[2..4] + "/" + token + ".bin"
  }

  lemma BuiltJoins(digest: string, token: string)
    requires |digest| >= 4
    ensures Join([digest[..2], digest[2..4], token + ".bin"]) == BuiltPath(digest, token)
  {
    var a, b, c := digest[..2], digest[2..4], token + ".bin";
    assert [a, b, c][1..] == [b, c] && [b, c][1..] == [c];
    assert Join([c]) == c;
    assert Join([b, c]) == b + "/" + c;
    assert Join([a, b, c]) == a + "/" + (b + "/" + c);
  }

  lemma BuiltStart(digest: string, token: string, i: nat)
    requires |digest| >= 4 && Hex(digest) && i < 6
    ensures i < |BuiltPath(digest, token)|
    ensures BuiltPath(digest, token)[i] != '\\' && BuiltPath(digest, token)[i] != '\0'
  {
    var path := BuiltPath(digest, token);
    if i == 2 || i == 5 {
      assert path[i] == '/';
    } else if i < 2 {
      assert path[i] == digest[i];
    } else {
      assert path[i] == digest[i - 1];
    }
  }

  lemma BuiltIsPlain(digest: string, token: string)
    requires |digest| >= 4 && Hex(digest) && Hex(token)
    ensures Forward(BuiltPath(digest, token)) == BuiltPath(digest, token) && '\0' !in BuiltPath(digest, token)
  {
    var path := BuiltPath(digest, token);
    forall i | 0 <= i < |path| ensures path[i] != '\\' && path[i] != '\0' {
      if i < 6 {
        BuiltStart(digest, token, i);
      } else if i < 6 + |token| {
        assert path[i] == token[i - 6];
      } else {
        assert path[i] == ".bin"[i - 6 - |token|];
      }
    }
  }

  lemma HexPart(s: string, i: nat, j: nat)
    requires Hex(s) && i < j <= |s|
    ensures '/' !in s[i..j] && ':' !in s[i..j] && !Refused(s[i..j])
  {
    assert s[i..j][0] == s[i] != '.';
  }

  lemma FilePart(token: string)
    requires Hex(token)
    ensures '/' !in token + ".bin" && !Refused(token + ".bin")
  {
    assert |token + ".bin"| >= 4;
  }

  /** A generated path is always accepted as it stands. */
  lemma BuiltIsCanonical(digest: string, token: string)
    requires |digest| >= 4 && Hex(digest) && Hex(token)
    ensures Canonical(BuiltPath(digest, token)) == Some(BuiltPath(digest, token))
  {
    var path := BuiltPath(digest, token);
    BuiltJoins(digest, token);
    BuiltIsPlain(digest, token);
    HexPart(digest, 0, 2);
    HexPart(digest, 2, 4);
    FilePart(token);
    assert digest[0..2] == digest[..2];
    CanonicalIs(path, [digest[..2], digest[2..4], token + ".bin"]);
    CanonicalIsFixed(path);
  }
}

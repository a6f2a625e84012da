/** The few string operations the services rely on: stripping blanks, splitting lines and
    substring search. Strings are sequences of code points. */
module Text {

  predicate IsSpace(c: char) {
    || '\t' <= c <= '\r' || '\U{001C}' <= c <= '\U{001F}' || c == ' '
    || c == '\U{0085}' || c == '\U{00A0}' || c == '\U{1680}' || '\U{2000}' <= c <= '\U{200A}'
    || c == '\U{2028}' || c == '\U{2029}' || c == '\U{202F}' || c == '\U{205F}' || c == '\U{3000}'
  }

  predicate IsLineBreak(c: char) {
    || '\n' <= c <= '\r' || '\U{001C}' <= c <= '\U{001E}'
    || c == '\U{0085}' || c == '\U{2028}' || c == '\U{2029}'
  }

  predicate Blank(s: string) {
    forall i :: 0 <= i < |s| ==> IsSpace(s[i])
  }

  /** The first position from `start` on whose character is kept. */
  function FirstKept(s: string, dropped: char -> bool, start: nat): (k: nat)
    requires start <= |s|
    ensures start <= k <= |s|
    decreases |s| - start
  {
    if start < |s| && dropped(s[start]) then FirstKept(s, dropped, start + 1) else start
  }

  lemma {:induction false} FirstKeptIs(s: string, dropped: char -> bool, start: nat)
    requires start <= |s|
    ensures var k := FirstKept(s, dropped, start);
            (forall i :: start <= i < k ==> dropped(s[i])) && (k < |s| ==> !dropped(s[k]))
    decreases |s| - start
  {
    if start < |s| && dropped(s[start]) {
      FirstKeptIs(s, dropped, start + 1);
    }
  }

  /** One behind the last position before `end` whose character is kept. */
  function KeptEnd(s: string, dropped: char -> bool, end: nat): (k: nat)
    requires end <= |s|
    ensures k <= end
  {
    if end > 0 && dropped(s[end - 1]) then KeptEnd(s, dropped, end - 1) else end
  }

  lemma {:induction false} KeptEndIs(s: string, dropped: char -> bool, end: nat)
    requires end <= |s|
    ensures var k := KeptEnd(s, dropped, end);
            (forall i :: k <= i < end ==> dropped(s[i])) && (k > 0 ==> !dropped(s[k - 1]))
  {
    if end > 0 && dropped(s[end - 1]) {
      KeptEndIs(s, dropped, end - 1);
    }
  }

  function DropLeft(s: string, dropped: char -> bool): string {
    s[FirstKept(s, dropped, 0)..]
  }

  function DropRight(s: string, dropped: char -> bool): string {
    s[..KeptEnd(s, dropped, |s|)]
  }

  /** What is left is a part of the text, and the characters at its ends are kept ones. */
  lemma DropCuts(s: string, dropped: char -> bool)
    ensures var r := DropRight(DropLeft(s, dropped), dropped);
            && (exists i, j :: 0 <= i <= j <= |s| && s[i..j] == r)
            && (r != "" ==> !dropped(r[0]) && !dropped(r[|r| - 1]))
  {
    var l := DropLeft(s, dropped);
    var i, k := FirstKept(s, dropped, 0), KeptEnd(l, dropped, |l|);
    FirstKeptIs(s, dropped, 0);
    KeptEndIs(l, dropped, |l|);
    assert s[i..i + k] == l[..k];
    if k > 0 {
      assert l[0] == s[i];
    }
  }

  lemma DropIsFixed(s: string, dropped: char -> bool)
    requires s != "" ==> !dropped(s[0]) && !dropped(s[|s| - 1])
    ensures DropLeft(s, dropped) == s && DropRight(s, dropped) == s
  {
    assert FirstKept(s, dropped, 0) == 0 && KeptEnd(s, dropped, |s|) == |s|;
  }

  /** Nothing is left exactly when nothing was kept. */
  lemma DropIsEmpty(s: string, dropped: char -> bool)
    ensures DropRight(DropLeft(s, dropped), dropped) == "" <==> forall i :: 0 <= i < |s| ==> dropped(s[i])
  {
    var l := DropLeft(s, dropped);
    var k := FirstKept(s, dropped, 0);
    FirstKeptIs(s, dropped, 0);
    KeptEndIs(l, dropped, |l|);
    if k < |s| {
      assert l[0] == s[k];
    }
  }

  function StripLeft(s: string): string {
    DropLeft(s, IsSpace)
  }

  function StripRight(s: string): string {
    DropRight(s, IsSpace)
  }

  function Strip(s: string): string {
    StripRight(StripLeft(s))
  }

  /** Stripping leaves nothing exactly when there was nothing but blanks. */
  lemma StripIsEmpty(s: string)
    ensures Strip(s) == "" <==> Blank(s)
  {
    DropIsEmpty(s, IsSpace);
  }

  /** A stripped text sits inside the text and has a blank at neither end. */
  lemma StripCuts(s: string)
    ensures exists i, j :: 0 <= i <= j <= |s| && s[i..j] == Strip(s)
    ensures Strip(s) != "" ==> !IsSpace(Strip(s)[0]) && !IsSpace(Strip(s)[|Strip(s)| - 1])
    ensures Strip(Strip(s)) == Strip(s)
  {
    DropCuts(s, IsSpace);
    DropIsFixed(Strip(s), IsSpace);
  }

  // str.splitlines followed by stripping each line and dropping the empty ones.
  function Paragraphs(s: string): seq<string> {
    ParagraphsFrom(s, "")
  }

  function ParagraphsFrom(s: string, line: string): seq<string>
    decreases |s|
  {
    if s == "" then Paragraph(line)
    else if IsLineBreak(s[0]) then Paragraph(line) + ParagraphsFrom(s[1..], "")
    else ParagraphsFrom(s[1..], line + [s[0]])
  }

  function Paragraph(line: string): seq<string> {
    var clean := Strip(line);
    if clean == "" then [] else [clean]
  }

  // ---------------------------------------------------------------- searching

  predicate Contains(text: string, term: string) {
    exists i :: 0 <= i <= |text| && OccursAt(text, term, i)
  }

  predicate OccursAt(text: string, term: string, i: int) {
    0 <= i <= |text| - |term| && text[i..i + |term|] == term
  }

  predicate HasTerm(text: string, terms: seq<string>) {
    exists i :: 0 <= i < |terms| && Contains(text, terms[i])
  }

  /** What occurs in a part of a text occurs in the text. */
  lemma ContainsInPart(text: string, term: string, i: nat, j: nat)
    requires i <= j <= |text| && Contains(text[i..j], term)
    ensures Contains(text, term)
  {
    var k :| 0 <= k <= |text[i..j]| && OccursAt(text[i..j], term, k);
    var n := |term|;
    forall m | 0 <= m < n ensures text[i + k..i + k + n][m] == term[m] {
      var part := text[i..j];
      assert part[k..k + n][m] == part[k + m] == text[i + (k + m)];
    }
    assert text[i + k..i + k + n] == term;
    assert OccursAt(text, term, i + k);
  }

  lemma OccurrenceAvoids(text: string, term: string, k: int, separator: char)
    requires OccursAt(text, term, k) && separator !in term
    ensures forall q :: k <= q < k + |term| ==> text[q] != separator
  {
    forall q | k <= q < k + |term| ensures text[q] != separator {
      assert text[k..k + |term|][q - k] == text[q];
      assert term[q - k] in term;
    }
  }

  /** A term without the separator does not reach across one. */
  lemma ContainsAcross(a: string, separator: char, b: string, term: string)
    requires separator !in term
    ensures Contains(a + [separator] + b, term) <==> Contains(a, term) || Contains(b, term)
  {
    var text := a + [separator] + b;
    assert text[0..|a|] == a && text[|a| + 1..|text|] == b;
    if Contains(a, term) {
      ContainsInPart(text, term, 0, |a|);
    }
    if Contains(b, term) {
      ContainsInPart(text, term, |a| + 1, |text|);
    }
    if Contains(text, term) {
      var k :| 0 <= k <= |text| && OccursAt(text, term, k);
      OccurrenceAvoids(text, term, k, separator);
      assert text[|a|] == separator;
      if k + |term| <= |a| {
        assert a[k..k + |term|] == text[k..k + |term|];
        assert OccursAt(a, term, k);
      } else {
        assert b[k - |a| - 1..k - |a| - 1 + |term|] == text[k..k + |term|];
        assert OccursAt(b, term, k - |a| - 1);
      }
    }
  }

  function JoinWith(pieces: seq<string>, separator: char): string {
    if pieces == [] then ""
    else if |pieces| == 1 then pieces[0]
    else pieces[0] + [separator] + JoinWith(pieces[1..], separator)
  }

  predicate InSomePiece(pieces: seq<string>, term: string) {
    exists i :: 0 <= i < |pieces| && Contains(pieces[i], term)
  }

  /** A term found in a joined text lies in one piece. */
  lemma {:induction false} TermLiesInOnePiece(pieces: seq<string>, separator: char, term: string)
    requires separator !in term && term != ""
    ensures Contains(JoinWith(pieces, separator), term) <==> InSomePiece(pieces, term)
  {
    if |pieces| == 1 {
      assert InSomePiece(pieces, term) <==> Contains(pieces[0], term);
    } else if |pieces| > 1 {
      var rest := pieces[1..];
      TermLiesInOnePiece(rest, separator, term);
      ContainsAcross(pieces[0], separator, JoinWith(rest, separator), term);
      if InSomePiece(rest, term) {
        var i :| 0 <= i < |rest| && Contains(rest[i], term);
        assert Contains(pieces[i + 1], term);
      }
      if InSomePiece(pieces, term) {
        var i :| 0 <= i < |pieces| && Contains(pieces[i], term);
        assert i > 0 ==> rest[i - 1] == pieces[i];
      }
    }
  }

  // ---------------------------------------------------------------- words

  /** str.split() joined by single blanks. */
  function Squeeze(s: string): string {
    SqueezeFrom(s, "")
  }

  function SqueezeFrom(s: string, done: string): string
    decreases |s|
  {
    if s == "" then StripRight(done)
    else if !IsSpace(s[0]) then SqueezeFrom(s[1..], done + [s[0]])
    else if done == "" || done[|done| - 1] == ' ' then SqueezeFrom(s[1..], done)
    else SqueezeFrom(s[1..], done + " ")
  }
}

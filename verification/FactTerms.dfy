/** The catalogs of canonical facts, what a text says in their terms, and which values are acceptable. */
module FactTerms {
  import opened Text

  datatype Entry = Entry(code: string, terms: seq<string>)

  type Catalog = seq<Entry>

  const COMPONENT_TERMS: Catalog := [
    Entry("main_shaft", ["风机主轴", "机组主轴", "主轴轴身", "主轴检测区域"]),
    Entry("tower_weld", ["塔筒焊缝"]),
    Entry("tower_component", ["塔筒部件"]),
    Entry("high_strength_bolt", ["高强度螺栓"]),
    Entry("pitch_bearing", ["变桨轴承"]),
    Entry("blade_bolt", ["叶片螺栓"])]

  const UT_TERMS: seq<string> := ["超声波检测", "超声检测", "超声探伤", "电磁超声"]
  const PAUT_TERMS: seq<string> := ["相控阵超声", "相控阵检测", "相控阵探伤"]

  const METHOD_TERMS: Catalog := [
    Entry("UT", UT_TERMS),
    Entry("PAUT", PAUT_TERMS),
    Entry("MT", ["磁粉检测", "磁粉探伤"]),
    Entry("PT", ["渗透检测", "渗透探伤"]),
    Entry("VT", ["目视检测", "外观检查", "目视检查"]),
    Entry("ET", ["涡流检测", "涡流探伤"])]

  const RISK_TERMS: Catalog := [
    Entry("high_altitude", ["高处作业", "高空作业", "高空临边", "高空坠落"]),
    Entry("climbing_tower", ["攀爬塔筒", "攀爬风机", "人员登塔", "登塔作业", "涉及爬塔"]),
    Entry("electrical_work", ["电气作业", "设备带电", "存在触电", "触电"]),
    Entry("temporary_power", ["临时用电", "临时电源"]),
    Entry("fire_hot_work", ["动火作业", "现场明火", "火灾"]),
    Entry("mechanical_injury", ["机械伤害"]),
    Entry("falling_object", ["高空坠物", "物体打击"]),
    Entry("confined_space", ["有限空间作业", "密闭空间", "窒息中毒"]),
    Entry("extreme_weather", ["大风暴雨", "大风天气", "冰冻天气", "极端天气"]),
    Entry("vehicle_traffic", ["驾驶车辆", "作业车辆", "车辆交通", "车辆伤害", "兼职司机"]),
    Entry("environmental_pollution", ["环境污染", "废油废液", "漏油"]),
    Entry("lifting_hoisting", ["起吊作业", "吊装作业", "电动葫芦"])]

  // What the validator accepts; kept apart from the terms.
  const COMPONENT_CODES: seq<string> :=
    ["main_shaft", "tower_weld", "tower_component", "high_strength_bolt", "pitch_bearing", "blade_bolt"]

  const METHOD_CODES: seq<string> := ["UT", "PAUT", "MT", "PT", "VT", "ET"]

  const RISK_CODES: seq<string> :=
    ["high_altitude", "climbing_tower", "electrical_work", "temporary_power", "fire_hot_work", "mechanical_injury",
     "falling_object", "confined_space", "extreme_weather", "vehicle_traffic", "environmental_pollution", "lifting_hoisting"]

  /** Terms are words: not empty, and without blanks. */
  predicate IsWord(term: string) {
    term != "" && forall i :: 0 <= i < |term| ==> !IsSpace(term[i])
  }

  predicate AreWords(terms: seq<string>) {
    forall i :: 0 <= i < |terms| ==> IsWord(terms[i])
  }

  predicate IsCatalog(catalog: Catalog, codes: seq<string>) {
    forall i :: 0 <= i < |catalog| ==> AreWords(catalog[i].terms) && catalog[i].code in codes
  }

  predicate Ideographs(terms: seq<string>) {
    forall i :: 0 <= i < |terms| ==> terms[i] != "" && forall j :: 0 <= j < |terms[i]| ==> terms[i][j] >= '一'
  }

  lemma IdeographsAreWords(terms: seq<string>)
    requires Ideographs(terms)
    ensures AreWords(terms)
  {
    forall i | 0 <= i < |terms| ensures IsWord(terms[i]) {
      forall j | 0 <= j < |terms[i]| ensures !IsSpace(terms[i][j]) {
        assert terms[i][j] >= '一';
      }
    }
  }

  lemma ComponentsAreCatalog()
    ensures IsCatalog(COMPONENT_TERMS, COMPONENT_CODES)
  {
    forall i | 0 <= i < |COMPONENT_TERMS| ensures AreWords(COMPONENT_TERMS[i].terms) && COMPONENT_TERMS[i].code in COMPONENT_CODES {
      assert COMPONENT_TERMS[i].code == COMPONENT_CODES[i];
      IdeographsAreWords(COMPONENT_TERMS[i].terms);
    }
  }

  lemma MethodsAreCatalog()
    ensures IsCatalog(METHOD_TERMS, METHOD_CODES)
  {
    forall i | 0 <= i < |METHOD_TERMS| ensures AreWords(METHOD_TERMS[i].terms) && METHOD_TERMS[i].code in METHOD_CODES {
      assert METHOD_TERMS[i].code == METHOD_CODES[i];
      IdeographsAreWords(METHOD_TERMS[i].terms);
    }
  }

  lemma FirstRiskTermsAreWords(i: nat)
    requires i < 6
    ensures AreWords(RISK_TERMS[i].terms)
  {
    IdeographsAreWords(RISK_TERMS[i].terms);
  }

  lemma OtherRiskTermsAreWords(i: nat)
    requires 6 <= i < |RISK_TERMS|
    ensures AreWords(RISK_TERMS[i].terms)
  {
    IdeographsAreWords(RISK_TERMS[i].terms);
  }

  lemma RisksAreCatalog()
    ensures IsCatalog(RISK_TERMS, RISK_CODES)
  {
    forall i | 0 <= i < |RISK_TERMS| ensures AreWords(RISK_TERMS[i].terms) && RISK_TERMS[i].code in RISK_CODES {
      if i < 6 {
        FirstRiskTermsAreWords(i);
      } else {
        OtherRiskTermsAreWords(i);
      }
      assert RISK_TERMS[i].code == RISK_CODES[i];
    }
  }

  // ---------------------------------------------------------------- codes of a text

  function MatchingCodes(text: string, catalog: Catalog): seq<string> {
    if catalog == [] then []
    else
      var n := |catalog| - 1;
      MatchingCodes(text, catalog[..n]) + (if HasTerm(text, catalog[n].terms) then [catalog[n].code] else [])
  }

  predicate SomeHasTerm(texts: seq<string>, terms: seq<string>) {
    exists i :: 0 <= i < |texts| && HasTerm(texts[i], terms)
  }

  /** Codes of which a term occurs in one of the texts. */
  function CodesInTexts(texts: seq<string>, catalog: Catalog): seq<string> {
    if catalog == [] then []
    else
      var n := |catalog| - 1;
      CodesInTexts(texts, catalog[..n]) + (if SomeHasTerm(texts, catalog[n].terms) then [catalog[n].code] else [])
  }

  lemma TermsInJoined(texts: seq<string>, terms: seq<string>)
    requires AreWords(terms)
    ensures HasTerm(JoinWith(texts, '\n'), terms) <==> SomeHasTerm(texts, terms)
  {
    forall i | 0 <= i < |terms| ensures Contains(JoinWith(texts, '\n'), terms[i]) <==> InSomePiece(texts, terms[i]) {
      assert IsWord(terms[i]);
      TermLiesInOnePiece(texts, '\n', terms[i]);
    }
    if SomeHasTerm(texts, terms) {
      var t :| 0 <= t < |texts| && HasTerm(texts[t], terms);
      var i :| 0 <= i < |terms| && Contains(texts[t], terms[i]);
      assert InSomePiece(texts, terms[i]);
    }
    if HasTerm(JoinWith(texts, '\n'), terms) {
      var i :| 0 <= i < |terms| && Contains(JoinWith(texts, '\n'), terms[i]);
      var t :| 0 <= t < |texts| && Contains(texts[t], terms[i]);
      assert HasTerm(texts[t], terms);
    }
  }

  /** Searching the joined text finds the codes of the single texts, no more and no fewer. */
  lemma {:induction false} CodesOfJoined(texts: seq<string>, catalog: Catalog, codes: seq<string>)
    requires IsCatalog(catalog, codes)
    ensures MatchingCodes(JoinWith(texts, '\n'), catalog) == CodesInTexts(texts, catalog)
  {
    if catalog != [] {
      var n := |catalog| - 1;
      CodesOfJoined(texts, catalog[..n], codes);
      TermsInJoined(texts, catalog[n].terms);
    }
  }

  predicate HitsCatalog(text: string, catalog: Catalog) {
    exists i :: 0 <= i < |catalog| && HasTerm(text, catalog[i].terms)
  }

  /** There are codes exactly when some entry is hit, and all of them are acceptable. */
  lemma {:induction false} CodesAreAllowed(text: string, catalog: Catalog, codes: seq<string>)
    requires IsCatalog(catalog, codes)
    ensures MatchingCodes(text, catalog) != [] <==> HitsCatalog(text, catalog)
    ensures forall c :: c in MatchingCodes(text, catalog) ==> c in codes
  {
    if catalog != [] {
      var n := |catalog| - 1;
      CodesAreAllowed(text, catalog[..n], codes);
      if HitsCatalog(text, catalog[..n]) {
        var i :| 0 <= i < n && HasTerm(text, catalog[..n][i].terms);
        assert HasTerm(text, catalog[i].terms);
      }
      if HitsCatalog(text, catalog) {
        var i :| 0 <= i < |catalog| && HasTerm(text, catalog[i].terms);
        assert i < n ==> HasTerm(text, catalog[..n][i].terms);
      }
    }
  }

  // ---------------------------------------------------------------- erasing terms

  function Erase(text: string, term: string): string
    requires term != ""
    decreases |text|
  {
    if |text| < |term| then text
    else if text[..|term|] == term then Erase(text[|term|..], term)
    else [text[0]] + Erase(text[1..], term)
  }

  lemma {:induction false} EraseNothing(text: string, term: string)
    requires term != "" && !Contains(text, term)
    ensures Erase(text, term) == text
    decreases |text|
  {
    if |text| >= |term| {
      assert text[0..0 + |term|] == text[..|term|];
      assert !OccursAt(text, term, 0);
      if Contains(text[1..], term) {
        assert text[1..|text|] == text[1..];
        ContainsInPart(text, term, 1, |text|);
      }
      EraseNothing(text[1..], term);
    }
  }

  function EraseAll(text: string, terms: seq<string>): string
    requires AreWords(terms)
  {
    if terms == [] then text else Erase(EraseAll(text, terms[..|terms| - 1]), terms[|terms| - 1])
  }

  lemma {:induction false} EraseAllNothing(text: string, terms: seq<string>)
    requires AreWords(terms) && !HasTerm(text, terms)
    ensures EraseAll(text, terms) == text
  {
    if terms != [] {
      var n := |terms| - 1;
      EraseAllNothing(text, terms[..n]);
      EraseNothing(text, terms[n]);
    }
  }

  predicate StartsWith(text: string, term: string) {
    |text| >= |term| && text[..|term|] == term
  }

  /** Where a term begins, it goes. */
  lemma EraseSkips(text: string, term: string)
    requires term != "" && StartsWith(text, term)
    ensures Erase(text, term) == Erase(text[|term|..], term)
  {
  }

  /** Where no term begins, one character is kept. */
  lemma EraseMovesOn(text: string, term: string)
    requires term != "" && text != "" && !StartsWith(text, term)
    ensures Erase(text, term) == [text[0]] + Erase(text[1..], term)
  {
    if |text| < |term| {
      assert Erase(text[1..], term) == text[1..];
    }
  }

  lemma StartsInside(a: string, separator: char, b: string, term: string)
    requires separator !in term && a != ""
    ensures StartsWith(a + [separator] + b, term) <==> StartsWith(a, term)
  {
    var text := a + [separator] + b;
    if StartsWith(text, term) {
      PrefixInside(a, separator, b, term);
    }
    if StartsWith(a, term) {
      assert text[..|term|] == a[..|term|];
    }
  }

  lemma TailInside(a: string, separator: char, b: string, k: nat)
    requires k <= |a|
    ensures (a + [separator] + b)[k..] == a[k..] + [separator] + b
  {
  }

  lemma HeadInside(a: string, separator: char, b: string, c: char)
    ensures [c] + (a + [separator] + b) == ([c] + a) + [separator] + b
  {
  }

  /** A term without the separator is erased on either side of it separately. */
  lemma {:induction false} EraseAcross(a: string, separator: char, b: string, term: string)
    requires term != "" && separator !in term
    ensures Erase(a + [separator] + b, term) == Erase(a, term) + [separator] + Erase(b, term)
    decreases |a|
  {
    var text := a + [separator] + b;
    if a == "" {
      assert text == [separator] + b;
      EraseAfter(separator, b, term);
    } else {
      StartsInside(a, separator, b, term);
      if StartsWith(a, term) {
        EraseSkips(text, term);
        EraseSkips(a, term);
        TailInside(a, separator, b, |term|);
        EraseAcross(a[|term|..], separator, b, term);
      } else {
        EraseMovesOn(text, term);
        EraseMovesOn(a, term);
        TailInside(a, separator, b, 1);
        EraseAcross(a[1..], separator, b, term);
        HeadInside(Erase(a[1..], term), separator, Erase(b, term), a[0]);
        assert text[0] == a[0];
      }
    }
  }

  lemma EraseAfter(separator: char, b: string, term: string)
    requires term != "" && separator !in term
    ensures Erase([separator] + b, term) == [separator] + Erase(b, term)
  {
    var text := [separator] + b;
    assert text[1..] == b;
    if |text| >= |term| {
      assert text[..|term|][0] == separator && term[0] in term;
    }
  }

  lemma PrefixInside(a: string, separator: char, b: string, term: string)
    requires separator !in term && |term| <= |a + [separator] + b| && (a + [separator] + b)[..|term|] == term
    ensures |term| <= |a| && a[..|term|] == term
  {
    var text := a + [separator] + b;
    assert OccursAt(text, term, 0) by {
      assert text[0..0 + |term|] == text[..|term|];
    }
    OccurrenceAvoids(text, term, 0, separator);
    assert text[|a|] == separator;
  }

  function ErasedAll(texts: seq<string>, terms: seq<string>): seq<string>
    requires AreWords(terms)
  {
    seq(|texts|, i requires 0 <= i < |texts| => EraseAll(texts[i], terms))
  }

  lemma {:induction false} EraseAllAcross(a: string, b: string, terms: seq<string>)
    requires AreWords(terms)
    ensures EraseAll(a + ['\n'] + b, terms) == EraseAll(a, terms) + ['\n'] + EraseAll(b, terms)
  {
    if terms != [] {
      var n := |terms| - 1;
      EraseAllAcross(a, b, terms[..n]);
      assert IsWord(terms[n]);
      EraseAcross(EraseAll(a, terms[..n]), '\n', EraseAll(b, terms[..n]), terms[n]);
    }
  }

  lemma {:induction false} EraseAllOfNothing(terms: seq<string>)
    requires AreWords(terms)
    ensures EraseAll("", terms) == ""
  {
    if terms != [] {
      EraseAllOfNothing(terms[..|terms| - 1]);
    }
  }

  /** Erasing from the joined text erases from each text. */
  lemma {:induction false} EraseJoined(texts: seq<string>, terms: seq<string>)
    requires AreWords(terms)
    ensures EraseAll(JoinWith(texts, '\n'), terms) == JoinWith(ErasedAll(texts, terms), '\n')
  {
    if texts == [] {
      EraseAllOfNothing(terms);
    } else if |texts| > 1 {
      EraseJoined(texts[1..], terms);
      EraseAllAcross(texts[0], JoinWith(texts[1..], '\n'), terms);
      assert ErasedAll(texts, terms)[1..] == ErasedAll(texts[1..], terms);
    }
  }

  // ---------------------------------------------------------------- values

  datatype Risk = Risk(code: string, evidence: string)

  datatype Value = Words(text: string) | Codes(codes: seq<string>) | Risks(items: seq<Risk>) | Foreign

  datatype Field = ProjectName | WorkScope | TargetComponent | InspectionComponents | InspectionMethods | RiskEvidence
                 | OtherField(name: string)

  predicate CodesValid(codes: seq<string>, allowed: seq<string>) {
    codes != [] && forall i :: 0 <= i < |codes| ==> codes[i] in allowed
  }

  /** validate_required_fact_value has no complaint. */
  predicate Acceptable(field: Field, value: Value) {
    match field
    case ProjectName => value.Words? && Strip(value.text) != ""
    case WorkScope => value.Words? && Strip(value.text) != ""
    case InspectionComponents => value.Codes? && CodesValid(value.codes, COMPONENT_CODES)
    case InspectionMethods => value.Codes? && CodesValid(value.codes, METHOD_CODES)
    case RiskEvidence =>
      value.Risks? && forall i :: 0 <= i < |value.items| ==>
        value.items[i].code in RISK_CODES && Strip(value.items[i].evidence) != ""
    case _ => true
  }

  /** A text with a word in it is not blank, and neither is the beginning of what is left of it when it
    * is stripped. */
  lemma EvidenceIsNotBlank(text: string, terms: seq<string>, limit: nat)
    requires AreWords(terms) && HasTerm(text, terms) && limit > 0
    ensures var s := Strip(text); s != "" && Strip(if |s| <= limit then s else s[..limit]) != ""
  {
    var i :| 0 <= i < |terms| && Contains(text, terms[i]);
    var term := terms[i];
    assert IsWord(term);
    var k :| 0 <= k <= |text| && OccursAt(text, term, k);
    assert text[k..k + |term|][0] == text[k] == term[0];
    assert !Blank(text);
    StripIsEmpty(text);
    StripCuts(text);
    var s := Strip(text);
    var cut := if |s| <= limit then s else s[..limit];
    assert cut[0] == s[0];
    StripIsEmpty(cut);
  }
}

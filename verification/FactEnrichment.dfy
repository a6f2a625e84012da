/** The enrichment itself, step by step. Whatever it adds is acceptable and anchored in a block that
  * says so, except the copy of an older scope candidate. */
module FactEnrichment {
  import opened Prelude
  import opened Text
  import opened FactTerms
  import opened CanonicalFacts

  predicate Good(c: Candidate) {
    Acceptable(c.field, c.value)
  }

  /** The anchor of a code or risk candidate names one of the catalog's terms. */
  predicate Sourced(c: Candidate) {
    && (c.field == InspectionComponents ==> HitsCatalog(c.anchor, COMPONENT_TERMS))
    && (c.field == InspectionMethods ==> HitsCatalog(c.anchor, METHOD_TERMS))
    && (c.field == RiskEvidence && c.value != Risks([]) ==> HitsCatalog(c.anchor, RISK_TERMS))
  }

  predicate IsFrom(c: Candidate, blocks: seq<Block>) {
    exists i :: 0 <= i < |blocks| && c == FromBlock(c.field, c.value, blocks[i])
  }

  predicate Proper(c: Candidate, blocks: seq<Block>) {
    Good(c) && Sourced(c) && IsFrom(c, blocks)
  }

  predicate AllProper(cs: seq<Candidate>, blocks: seq<Block>) {
    forall i :: 0 <= i < |cs| ==> Proper(cs[i], blocks)
  }

  function FieldsOf(cs: seq<Candidate>): set<Field> {
    set i | 0 <= i < |cs| :: cs[i].field
  }

  lemma FieldsAppend(cs: seq<Candidate>, c: Candidate)
    ensures FieldsOf(cs + [c]) == FieldsOf(cs) + {c.field}
  {
    assert (cs + [c])[|cs|] == c;
    forall f | f in FieldsOf(cs) ensures f in FieldsOf(cs + [c]) {
      var i :| 0 <= i < |cs| && cs[i].field == f;
      assert (cs + [c])[i].field == f;
    }
  }

  // ---------------------------------------------------------------- risks

  function FirstWith(blocks: seq<Block>, terms: seq<string>): (i: nat)
    ensures i <= |blocks| && (i < |blocks| ==> HasTerm(blocks[i].text, terms))
    ensures forall j :: 0 <= j < i ==> !HasTerm(blocks[j].text, terms)
  {
    if blocks == [] || HasTerm(blocks[0].text, terms) then 0 else 1 + FirstWith(blocks[1..], terms)
  }

  function Evidence(text: string): string {
    var clean := Strip(text);
    if |clean| <= 500 then clean else clean[..500]
  }

  predicate ItemValid(item: Risk, codes: seq<string>) {
    item.code in codes && Strip(item.evidence) != ""
  }

  predicate ItemsValid(items: seq<Risk>, codes: seq<string>) {
    forall i :: 0 <= i < |items| ==> ItemValid(items[i], codes)
  }

  function CodesOf(items: seq<Risk>): seq<string> {
    seq(|items|, i requires 0 <= i < |items| => items[i].code)
  }

  /** One item for every risk that some block names, with that block's text as evidence. */
  method RiskItems(blocks: seq<Block>, catalog: Catalog, ghost codes: seq<string>)
      returns (items: seq<Risk>, anchor: Option<Block>)
    requires IsCatalog(catalog, codes)
    ensures CodesOf(items) == CodesInTexts(Texts(blocks), catalog) && ItemsValid(items, codes)
    ensures items == [] <==> anchor == None
    ensures anchor.Some? ==> anchor.value in blocks && HitsCatalog(anchor.value.text, catalog)
  {
    items, anchor := [], None;
    for e := 0 to |catalog|
      invariant CodesOf(items) == CodesInTexts(Texts(blocks), catalog[..e]) && ItemsValid(items, codes)
      invariant items == [] <==> anchor == None
      invariant anchor.Some? ==> anchor.value in blocks && HitsCatalog(anchor.value.text, catalog)
    {
      OneMoreEntry(Texts(blocks), catalog, e);
      var entry := catalog[e];
      var first := FirstWith(blocks, entry.terms);
      FirstIsSome(blocks, entry.terms);
      if first < |blocks| {
        var matched := blocks[first];
        HitIsValid(matched.text, catalog, codes, e);
        if anchor == None {
          anchor := Some(matched);
        }
        ItemsAppend(items, Risk(entry.code, Evidence(matched.text)), codes);
        items := items + [Risk(entry.code, Evidence(matched.text))];
      }
    }
    assert catalog[..|catalog|] == catalog;
  }

  lemma HitIsValid(text: string, catalog: Catalog, codes: seq<string>, e: nat)
    requires IsCatalog(catalog, codes) && e < |catalog| && HasTerm(text, catalog[e].terms)
    ensures ItemValid(Risk(catalog[e].code, Evidence(text)), codes) && HitsCatalog(text, catalog)
  {
    EvidenceIsNotBlank(text, catalog[e].terms, 500);
  }

  lemma ItemsAppend(items: seq<Risk>, item: Risk, codes: seq<string>)
    requires ItemsValid(items, codes) && ItemValid(item, codes)
    ensures ItemsValid(items + [item], codes) && CodesOf(items + [item]) == CodesOf(items) + [item.code]
  {
  }

  lemma OneMoreEntry(texts: seq<string>, catalog: Catalog, e: nat)
    requires e < |catalog|
    ensures CodesInTexts(texts, catalog[..e + 1])
            == CodesInTexts(texts, catalog[..e]) + (if SomeHasTerm(texts, catalog[e].terms) then [catalog[e].code] else [])
  {
    assert catalog[..e + 1][..e] == catalog[..e] && catalog[..e + 1][e] == catalog[e];
  }

  lemma FirstIsSome(blocks: seq<Block>, terms: seq<string>)
    ensures FirstWith(blocks, terms) < |blocks| <==> SomeHasTerm(Texts(blocks), terms)
  {
    var first := FirstWith(blocks, terms);
    if first < |blocks| {
      assert HasTerm(Texts(blocks)[first], terms);
    }
    if SomeHasTerm(Texts(blocks), terms) {
      var i :| 0 <= i < |blocks| && HasTerm(Texts(blocks)[i], terms);
      assert HasTerm(blocks[i].text, terms);
    }
  }

  // ---------------------------------------------------------------- the block of the scope

  function ScopeScore(text: string): nat {
    (if HitsCatalog(text, COMPONENT_TERMS) then 4 else 0)
    + (if HasTerm(text, ["主要内容包括", "工作范围", "检测范围"]) then 3 else 0)
    + (if Contains(text, "检测") then 2 else 0)
    + (if HasTerm(text, ["台风电机组", "台机组", "号机组"]) then 1 else 0)
  }

  /** The first block among those with the highest score, if that reaches six. */
  method BestScopeBlock(blocks: seq<Block>) returns (best: Option<Block>)
    ensures best == None <==> forall i :: 0 <= i < |blocks| ==> ScopeScore(blocks[i].text) < 6
    ensures best.Some? ==> exists i :: 0 <= i < |blocks| && best.value == blocks[i] && IsBest(blocks, i)
  {
    best := None;
    var top := 5;
    ghost var where := 0;
    for i := 0 to |blocks|
      invariant top >= 5 && (best == None <==> top == 5)
      invariant forall j :: 0 <= j < i ==> ScopeScore(blocks[j].text) <= top
      invariant best.Some? ==> 0 <= where < i && best.value == blocks[where] && ScopeScore(blocks[where].text) == top
      invariant best.Some? ==> forall j :: 0 <= j < where ==> ScopeScore(blocks[j].text) < top
    {
      var score := ScopeScore(blocks[i].text);
      if score > top {
        best, top, where := Some(blocks[i]), score, i;
      }
    }
  }

  predicate IsBest(blocks: seq<Block>, i: nat)
    requires i < |blocks|
  {
    && (forall j :: 0 <= j < |blocks| ==> ScopeScore(blocks[j].text) <= ScopeScore(blocks[i].text))
    && forall j :: 0 <= j < i ==> ScopeScore(blocks[j].text) < ScopeScore(blocks[i].text)
  }

  function Marked(blocks: seq<Block>, markers: seq<string>, except: Option<Block>): (r: seq<Block>)
    ensures forall b :: b in r ==> b in blocks
  {
    if blocks == [] then []
    else
      var rest := Marked(blocks[1..], markers, except);
      if HasTerm(blocks[0].text, markers) && Some(blocks[0]) != except then [blocks[0]] + rest else rest
  }

  function ScopeBlocks(scope: Option<Block>, blocks: seq<Block>): (r: seq<Block>)
    requires scope.Some? ==> scope.value in blocks
    ensures forall b :: b in r ==> b in blocks
  {
    var first := if scope.Some? then [scope.value] else [];
    var preferred := first + Marked(blocks, ["检测范围", "主要内容包括", "项目探伤作业"], scope);
    if preferred != [] then preferred else blocks
  }

  function MethodBlocks(blocks: seq<Block>): (r: seq<Block>)
    ensures forall b :: b in r ==> b in blocks
  {
    Marked(blocks, ["采用", "检测方法", "检测步骤", "检测标准"], None)
  }

  // ---------------------------------------------------------------- candidates

  method ComponentCandidate(blocks: seq<Block>, all: seq<Block>) returns (c: Option<Candidate>)
    requires forall b :: b in blocks ==> b in all
    ensures c == None <==> !SomeSays(blocks, COMPONENT_TERMS)
    ensures c.Some? ==> c.value.field == InspectionComponents && Proper(c.value, all)
                        && c.value.value == Codes(CodesInTexts(Texts(blocks), COMPONENT_TERMS))
  {
    ComponentsAreCatalog();
    MatchesAreSaid(blocks, COMPONENT_TERMS, COMPONENT_CODES);
    var codes := CatalogMatches(blocks, COMPONENT_TERMS);
    if codes == [] {
      return None;
    }
    var block := FirstMatchingBlock(blocks, COMPONENT_TERMS);
    c := Some(FromBlock(InspectionComponents, Codes(codes), block));
    ComponentsAreProper(codes, block, all);
  }

  lemma FromMember(field: Field, value: Value, block: Block, all: seq<Block>)
    requires block in all
    ensures IsFrom(FromBlock(field, value, block), all)
  {
    var i :| 0 <= i < |all| && all[i] == block;
  }

  lemma ComponentsAreProper(codes: seq<string>, block: Block, all: seq<Block>)
    requires CodesValid(codes, COMPONENT_CODES) && HitsCatalog(block.text, COMPONENT_TERMS) && block in all
    ensures Proper(FromBlock(InspectionComponents, Codes(codes), block), all)
  {
    FromMember(InspectionComponents, Codes(codes), block, all);
  }

  lemma RisksAreProper(items: seq<Risk>, block: Block, all: seq<Block>)
    requires ItemsValid(items, RISK_CODES) && block in all
    requires items != [] ==> HitsCatalog(block.text, RISK_TERMS)
    ensures Proper(FromBlock(RiskEvidence, Risks(items), block), all)
  {
    FromMember(RiskEvidence, Risks(items), block, all);
    forall i | 0 <= i < |items| ensures items[i].code in RISK_CODES && Strip(items[i].evidence) != "" {
      assert ItemValid(items[i], RISK_CODES);
    }
  }

  method MethodCandidate(blocks: seq<Block>, all: seq<Block>) returns (c: Option<Candidate>)
    requires forall b :: b in blocks ==> b in all
    ensures c == None <==> MethodMatches(blocks) == []
    ensures c.Some? ==> c.value.field == InspectionMethods && Proper(c.value, all)
                        && c.value.value == Codes(MethodMatches(blocks))
  {
    var codes := MethodMatches(blocks);
    if codes == [] {
      return None;
    }
    MethodsAreSaid(blocks);
    var block := FirstMatchingBlock(blocks, METHOD_TERMS);
    c := Some(FromBlock(InspectionMethods, Codes(codes), block));
    FromMember(InspectionMethods, Codes(codes), block, all);
  }

  method RiskCandidate(blocks: seq<Block>, fallback: Block) returns (c: Candidate)
    requires fallback in blocks
    ensures c.field == RiskEvidence && Proper(c, blocks) && c.value.Risks?
    ensures CodesOf(c.value.items) == CodesInTexts(Texts(blocks), RISK_TERMS)
  {
    RisksAreCatalog();
    var items, anchor := RiskItems(blocks, RISK_TERMS, RISK_CODES);
    var block := if anchor.Some? then anchor.value else fallback;
    c := FromBlock(RiskEvidence, Risks(items), block);
    RisksAreProper(items, block, blocks);
  }

  // ---------------------------------------------------------------- the user's own requirements

  const REQUIREMENT_LABEL := "用户本次编制要求"
  const NAME_LABEL := "项目名称"

  predicate HasLabel(text: string, heading: string) {
    (heading + "：") <= text || (heading + ":") <= text
  }

  predicate IsColon(c: char) {
    c == '：' || c == ':'
  }

  function TrimColons(s: string): string {
    DropLeft(s, IsColon)
  }

  function LabeledValue(text: string, heading: string): string {
    Strip(TrimColons(if |heading| <= |text| then text[|heading|..] else ""))
  }

  lemma InStripped(text: string, term: string)
    requires Contains(Strip(text), term)
    ensures Contains(text, term)
  {
    StripCuts(text);
    var i, j :| 0 <= i <= j <= |text| && text[i..j] == Strip(text);
    ContainsInPart(text, term, i, j);
  }

  /** The labelled value is a part of the text. */
  lemma InLabeledValue(text: string, heading: string, term: string)
    requires Contains(LabeledValue(text, heading), term) && term != ""
    ensures Contains(text, term)
  {
    var tail := if |heading| <= |text| then text[|heading|..] else "";
    InStripped(TrimColons(tail), term);
    var k := FirstKept(tail, IsColon, 0);
    assert tail[k..|tail|] == TrimColons(tail);
    ContainsInPart(tail, term, k, |tail|);
    if |heading| <= |text| {
      assert text[|heading|..|text|] == tail;
      ContainsInPart(text, term, |heading|, |text|);
    }
  }

  function FirstLabeled(blocks: seq<Block>, heading: string): (i: nat)
    ensures i <= |blocks| && (i < |blocks| ==> HasLabel(blocks[i].text, heading))
  {
    if blocks == [] || HasLabel(blocks[0].text, heading) then 0 else 1 + FirstLabeled(blocks[1..], heading)
  }

  function FirstContaining(blocks: seq<Block>, text: string): (i: nat)
    ensures i <= |blocks| && (i < |blocks| ==> text != "" && Contains(blocks[i].text, text))
  {
    if blocks == [] || (text != "" && Contains(blocks[0].text, text)) then 0 else 1 + FirstContaining(blocks[1..], text)
  }

  /** The texts of the prompt: the first without its heading. */
  function PromptTexts(prompt: seq<Block>): seq<string> {
    seq(|prompt|, i requires 0 <= i < |prompt| =>
      if i == 0 then LabeledValue(prompt[0].text, REQUIREMENT_LABEL) else prompt[i].text)
  }

  function PromptText(prompt: seq<Block>): string {
    Strip(JoinWith(PromptTexts(prompt), '\n'))
  }

  /** A term found in the joined, stripped prompt stands in one of its blocks. */
  lemma PromptSays(prompt: seq<Block>, catalog: Catalog, codes: seq<string>)
    requires IsCatalog(catalog, codes) && HitsCatalog(PromptText(prompt), catalog)
    ensures SomeSays(prompt, catalog)
  {
    var joined := JoinWith(PromptTexts(prompt), '\n');
    var e :| 0 <= e < |catalog| && HasTerm(PromptText(prompt), catalog[e].terms);
    var i :| 0 <= i < |catalog[e].terms| && Contains(PromptText(prompt), catalog[e].terms[i]);
    var term := catalog[e].terms[i];
    assert IsWord(term);
    InStripped(joined, term);
    TermLiesInOnePiece(PromptTexts(prompt), '\n', term);
    var t :| 0 <= t < |prompt| && Contains(PromptTexts(prompt)[t], term);
    if t == 0 {
      InLabeledValue(prompt[0].text, REQUIREMENT_LABEL, term);
    }
    assert HasTerm(prompt[t].text, catalog[e].terms);
    assert Says(prompt[t], catalog);
  }

  lemma StrippedIsGood(s: string, field: Field)
    requires Strip(s) != "" && (field == ProjectName || field == WorkScope)
    ensures Acceptable(field, Words(Strip(s)))
  {
    StripCuts(s);
  }

  method NameCandidate(prompt: seq<Block>, all: seq<Block>, text: string, patterns: Patterns) returns (c: Option<Candidate>)
    requires forall b :: b in prompt ==> b in all
    ensures c.Some? ==> c.value.field == ProjectName && Proper(c.value, all)
  {
    var captured := patterns.projectName(text);
    var explicit := if captured.Some? then Strip(captured.value) else "";
    var found := FirstContaining(prompt, explicit);
    var labeled := FirstLabeled(all, NAME_LABEL);
    if found == |prompt| && labeled == |all| {
      return None;
    }
    var block := if found < |prompt| then prompt[found] else all[labeled];
    var name := if explicit != "" then explicit else LabeledValue(block.text, NAME_LABEL);
    if name == "" {
      return None;
    }
    if explicit != "" {
      StrippedIsGood(captured.value, ProjectName);
    } else {
      StrippedIsGood(TrimColons(if |NAME_LABEL| <= |block.text| then block.text[|NAME_LABEL|..] else ""), ProjectName);
    }
    c := Some(FromBlock(ProjectName, Words(name), block));
    FromMember(ProjectName, Words(name), block, all);
  }

  const OPENING_MARKERS: seq<string> := ["工作范围", "检测范围", "检测", "探伤", "作业", "机组"]

  predicate IsOpening(text: string) {
    HitsCatalog(text, COMPONENT_TERMS) || HitsCatalog(text, METHOD_TERMS) || HasTerm(text, OPENING_MARKERS)
  }

  method PromptScope(prompt: seq<Block>, all: seq<Block>, text: string, patterns: Patterns) returns (c: Option<Candidate>)
    requires prompt != [] && forall b :: b in prompt ==> b in all
    ensures c.Some? ==> c.value.field == WorkScope && Proper(c.value, all)
  {
    var captured := patterns.workScope(text);
    var source, block := "", prompt[0];
    if captured.Some? {
      source := captured.value;
      var found := FirstContaining(prompt, Strip(source));
      if found == |prompt| {
        return None;
      }
      block := prompt[found];
    } else {
      var best := BestScopeBlock(prompt);
      if best.Some? {
        source, block := best.value.text, best.value;
      } else {
        var opening := LabeledValue(block.text, REQUIREMENT_LABEL);
        if !IsOpening(opening) {
          return None;
        }
        source := TrimColons(if |REQUIREMENT_LABEL| <= |block.text| then block.text[|REQUIREMENT_LABEL|..] else "");
      }
    }
    if Strip(source) == "" {
      return None;
    }
    StrippedIsGood(source, WorkScope);
    c := Some(FromBlock(WorkScope, Words(Strip(source)), block));
    FromMember(WorkScope, Words(Strip(source)), block, all);
  }

  method PromptComponents(prompt: seq<Block>, all: seq<Block>, text: string) returns (c: Option<Candidate>)
    requires text == PromptText(prompt) && forall b :: b in prompt ==> b in all
    ensures c == None <==> MatchingCodes(text, COMPONENT_TERMS) == []
    ensures c.Some? ==> c.value.field == InspectionComponents && Proper(c.value, all)
                        && c.value.value == Codes(MatchingCodes(text, COMPONENT_TERMS))
  {
    var codes := MatchingCodes(text, COMPONENT_TERMS);
    if codes == [] {
      return None;
    }
    ComponentsAreCatalog();
    CodesAreAllowed(text, COMPONENT_TERMS, COMPONENT_CODES);
    PromptSays(prompt, COMPONENT_TERMS, COMPONENT_CODES);
    var block := FirstMatchingBlock(prompt, COMPONENT_TERMS);
    c := Some(FromBlock(InspectionComponents, Codes(codes), block));
    ComponentsAreProper(codes, block, all);
  }

  /** The order in which candidates are made of the prompt. */
  function Rank(f: Field): nat {
    match f
    case ProjectName => 0
    case WorkScope => 1
    case InspectionComponents => 2
    case InspectionMethods => 3
    case RiskEvidence => 4
    case _ => 5
  }

  /** Candidates for the first n fields, in that order and at most one for each. */
  ghost predicate PreferredOk(cs: seq<Candidate>, all: seq<Block>, n: nat) {
    && AllProper(cs, all)
    && (forall i :: 0 <= i < |cs| ==> Rank(cs[i].field) < n)
    && forall i, j :: 0 <= i < j < |cs| ==> Rank(cs[i].field) < Rank(cs[j].field)
  }

  lemma OneMoreProper(cs: seq<Candidate>, c: Candidate, all: seq<Block>)
    requires AllProper(cs, all) && Proper(c, all)
    ensures AllProper(cs + [c], all)
  {
    forall i | 0 <= i <= |cs| ensures Proper((cs + [c])[i], all) {
      assert (cs + [c])[i] == if i < |cs| then cs[i] else c;
    }
  }

  method Add(cs: seq<Candidate>, c: Option<Candidate>, ghost all: seq<Block>, ghost n: nat) returns (r: seq<Candidate>)
    requires PreferredOk(cs, all, n)
    requires c.Some? ==> Rank(c.value.field) == n && Proper(c.value, all)
    ensures r == cs + (if c.Some? then [c.value] else [])
    ensures PreferredOk(r, all, n + 1)
  {
    if c == None {
      return cs;
    }
    r := cs + [c.value];
    OneMoreProper(cs, c.value, all);
  }

  function BlocksOf(d: Document): seq<Block> {
    seq(|d.blocks|, i requires 0 <= i < |d.blocks| => Block(d.version, d.blocks[i]))
  }

  function FindDocument(documents: seq<Document>, version: nat): (i: nat)
    ensures i <= |documents| && (i < |documents| ==> documents[i].version == version)
  {
    if documents == [] || documents[0].version == version then 0 else 1 + FindDocument(documents[1..], version)
  }

  method PromptCandidates(prompt: seq<Block>, all: seq<Block>, patterns: Patterns) returns (r: seq<Candidate>)
    requires prompt != [] && forall b :: b in prompt ==> b in all
    ensures PreferredOk(r, all, 5)
  {
    var text := PromptText(prompt);
    r := [];
    if text == "" {
      return;
    }
    r := DeclaredCandidates(prompt, all, text, patterns);
    r := ObservedCandidates(prompt, all, text, r);
  }

  method DeclaredCandidates(prompt: seq<Block>, all: seq<Block>, text: string, patterns: Patterns) returns (r: seq<Candidate>)
    requires prompt != [] && forall b :: b in prompt ==> b in all
    ensures PreferredOk(r, all, 2)
  {
    var name := NameCandidate(prompt, all, text, patterns);
    r := Add([], name, all, 0);
    var scope := PromptScope(prompt, all, text, patterns);
    r := Add(r, scope, all, 1);
  }

  method ObservedCandidates(prompt: seq<Block>, all: seq<Block>, text: string, declared: seq<Candidate>)
      returns (r: seq<Candidate>)
    requires text == PromptText(prompt) && forall b :: b in prompt ==> b in all
    requires PreferredOk(declared, all, 2)
    ensures PreferredOk(r, all, 5)
  {
    var components := PromptComponents(prompt, all, text);
    r := Add(declared, components, all, 2);
    r := AddMethodsAndRisks(prompt, all, r);
  }

  method AddMethodsAndRisks(prompt: seq<Block>, all: seq<Block>, before: seq<Candidate>) returns (r: seq<Candidate>)
    requires forall b :: b in prompt ==> b in all
    requires PreferredOk(before, all, 3)
    ensures PreferredOk(r, all, 5)
  {
    var methods := MethodCandidate(prompt, all);
    r := Add(before, methods, all, 3);
    var risks := PromptRisks(prompt, all);
    r := Add(r, risks, all, 4);
  }

  method PromptRisks(prompt: seq<Block>, all: seq<Block>) returns (c: Option<Candidate>)
    requires forall b :: b in prompt ==> b in all
    ensures c.Some? ==> c.value.field == RiskEvidence && Proper(c.value, all)
                        && c.value.value.Risks? && c.value.value.items != []
    ensures c == None <==> CodesInTexts(Texts(prompt), RISK_TERMS) == []
  {
    RisksAreCatalog();
    var items, anchor := RiskItems(prompt, RISK_TERMS, RISK_CODES);
    if anchor == None {
      return None;
    }
    c := Some(FromBlock(RiskEvidence, Risks(items), anchor.value));
    RisksAreProper(items, anchor.value, all);
  }

  /** Candidates from the user's own requirements: at most one for each field. */
  method PreferredCandidates(documents: seq<Document>, preferred: Option<nat>, patterns: Patterns)
      returns (r: seq<Candidate>, ghost all: seq<Block>)
    ensures PreferredOk(r, all, 5)
    ensures preferred == None ==> r == []
  {
    r, all := [], [];
    if preferred == None {
      return;
    }
    var d := FindDocument(documents, preferred.value);
    if d == |documents| {
      return;
    }
    var blocks := BlocksOf(documents[d]);
    var start := FirstLabeled(blocks, REQUIREMENT_LABEL);
    if start == |blocks| {
      return;
    }
    all := blocks;
    r := PromptCandidates(blocks[start..], blocks, patterns);
  }

  // ---------------------------------------------------------------- enriching

  function Kept(candidates: seq<Candidate>, fields: set<Field>): (r: seq<Candidate>)
    ensures forall c :: c in r <==> c in candidates && c.field !in fields
  {
    if candidates == [] then []
    else
      var rest := Kept(candidates[1..], fields);
      if candidates[0].field in fields then rest else [candidates[0]] + rest
  }

  function AllBlocks(documents: seq<Document>): seq<Block> {
    if documents == [] then [] else NonBlank(BlocksOf(documents[0])) + AllBlocks(documents[1..])
  }

  function NonBlank(blocks: seq<Block>): seq<Block> {
    if blocks == [] then []
    else (if Strip(blocks[0].text) != "" then [blocks[0]] else []) + NonBlank(blocks[1..])
  }

  lemma {:induction false} NonBlankAre(blocks: seq<Block>)
    ensures forall b :: b in NonBlank(blocks) <==> b in blocks && Strip(b.text) != ""
  {
    if blocks != [] {
      NonBlankAre(blocks[1..]);
    }
  }

  lemma {:induction false} AllAreNonBlank(documents: seq<Document>, b: Block)
    requires b in AllBlocks(documents)
    ensures Strip(b.text) != ""
  {
    if documents != [] {
      NonBlankAre(BlocksOf(documents[0]));
      if b !in NonBlank(BlocksOf(documents[0])) {
        AllAreNonBlank(documents[1..], b);
      }
    }
  }

  function FirstOfField(candidates: seq<Candidate>, field: Field): (i: nat)
    ensures i <= |candidates| && (i < |candidates| ==> candidates[i].field == field)
  {
    if candidates == [] || candidates[0].field == field then 0 else 1 + FirstOfField(candidates[1..], field)
  }

  /** The copy of an older candidate takes its quote, or its value where there is no quote. */
  function AliasOf(c: Candidate): Candidate {
    c.(field := WorkScope, value := if c.quote != "" then Words(c.quote) else c.value)
  }

  /** The one added candidate that the validator may refuse: the copy of a target component whose quote
    * is blank, or that has no quote and no proper value. */
  lemma AliasIsGoodIff(c: Candidate)
    ensures Good(AliasOf(c)) <==> (if c.quote != "" then !Blank(c.quote) else c.value.Words? && !Blank(c.value.text))
  {
    StripIsEmpty(c.quote);
    if c.value.Words? {
      StripIsEmpty(c.value.text);
    }
  }

  datatype Enrichment = Enrichment(kept: seq<Candidate>, preferred: seq<Candidate>, added: seq<Candidate>)

  /** Added candidates fill fields that were missing, one each. */
  predicate AddedOk(before: seq<Candidate>, added: seq<Candidate>, blocks: seq<Block>) {
    && (forall i :: 0 <= i < |added| ==> added[i].field !in FieldsOf(before))
    && (forall i, j :: 0 <= i < j < |added| ==> added[i].field != added[j].field)
    && forall i :: 0 <= i < |added| ==> Proper(added[i], blocks) || IsAliasOf(added[i], before)
  }

  predicate IsAliasOf(c: Candidate, before: seq<Candidate>) {
    exists i :: 0 <= i < |before| && before[i].field == TargetComponent && c == AliasOf(before[i])
  }

  /** The field is there, unless nothing in the blocks could fill it. */
  ghost predicate Filled(before: seq<Candidate>, added: seq<Candidate>, blocks: seq<Block>, scope: Option<Block>)
    requires scope.Some? ==> scope.value in blocks
  {
    var fields := FieldsOf(before + added);
    && (blocks != [] ==> RiskEvidence in fields)
    && (InspectionComponents !in fields ==> !SomeSays(ScopeBlocks(scope, blocks), COMPONENT_TERMS))
    && (InspectionMethods !in fields ==> MethodMatches(MethodBlocks(blocks)) == [])
    && (WorkScope !in fields ==>
          TargetComponent !in FieldsOf(before) && forall i :: 0 <= i < |blocks| ==> ScopeScore(blocks[i].text) < 6)
  }

  method Enrich(candidates: seq<Candidate>, documents: seq<Document>, preferred: Option<nat>, patterns: Patterns)
      returns (e: Enrichment, ghost own: seq<Block>, ghost scope: Option<Block>)
    ensures e.kept == Kept(candidates, FieldsOf(e.preferred) - {RiskEvidence})
    ensures PreferredOk(e.preferred, own, 5)
    ensures AddedOk(e.kept + e.preferred, e.added, AllBlocks(documents))
    ensures scope.Some? ==> scope.value in AllBlocks(documents)
    ensures AllBlocks(documents) != [] ==> Filled(e.kept + e.preferred, e.added, AllBlocks(documents), scope)
  {
    var fromPrompt;
    fromPrompt, own := PreferredCandidates(documents, preferred, patterns);
    var kept := Kept(candidates, FieldsOf(fromPrompt) - {RiskEvidence});
    var enriched := kept + fromPrompt;
    var blocks := AllBlocks(documents);
    scope := None;
    if blocks == [] {
      return Enrichment(kept, fromPrompt, []), own, scope;
    }
    var added, found := AddMissing(enriched, blocks, documents);
    scope := found;
    return Enrichment(kept, fromPrompt, added), own, scope;
  }

  method ScopeCandidate(enriched: seq<Candidate>, blocks: seq<Block>, scope: Option<Block>) returns (c: Option<Candidate>)
    requires scope.Some? ==> scope.value in blocks && Strip(scope.value.text) != ""
    requires WorkScope !in FieldsOf(enriched)
    ensures c.Some? ==> c.value.field == WorkScope && (Proper(c.value, blocks) || IsAliasOf(c.value, enriched))
    ensures c == None <==> scope == None && TargetComponent !in FieldsOf(enriched)
  {
    var alias := FirstOfField(enriched, TargetComponent);
    TargetIsFirst(enriched);
    if scope.Some? {
      var value := Words(Strip(scope.value.text));
      StrippedIsGood(scope.value.text, WorkScope);
      FromMember(WorkScope, value, scope.value, blocks);
      return Some(FromBlock(WorkScope, value, scope.value));
    }
    if alias < |enriched| {
      return Some(AliasOf(enriched[alias]));
    }
    return None;
  }

  lemma TargetIsFirst(enriched: seq<Candidate>)
    ensures FirstOfField(enriched, TargetComponent) < |enriched| <==> TargetComponent in FieldsOf(enriched)
  {
    var first := FirstOfField(enriched, TargetComponent);
    if first < |enriched| {
      assert enriched[first].field in FieldsOf(enriched);
    }
    if TargetComponent in FieldsOf(enriched) {
      var i :| 0 <= i < |enriched| && enriched[i].field == TargetComponent;
      FirstFound(enriched, i);
    }
  }

  lemma {:induction false} FirstFound(enriched: seq<Candidate>, i: nat)
    requires i < |enriched| && enriched[i].field == TargetComponent
    ensures FirstOfField(enriched, TargetComponent) < |enriched|
  {
    if i > 0 {
      FirstFound(enriched[1..], i - 1);
    }
  }

  method Append(before: seq<Candidate>, added: seq<Candidate>, c: Option<Candidate>, ghost blocks: seq<Block>)
      returns (r: seq<Candidate>)
    requires AddedOk(before, added, blocks)
    requires c.Some? ==> c.value.field !in FieldsOf(before) && c.value.field !in FieldsOf(added)
    requires c.Some? ==> Proper(c.value, blocks) || IsAliasOf(c.value, before)
    ensures AddedOk(before, r, blocks)
    ensures FieldsOf(r) == FieldsOf(added) + (if c.Some? then {c.value.field} else {})
  {
    if c == None {
      return added;
    }
    r := added + [c.value];
    FieldsAppend(added, c.value);
    forall i | 0 <= i < |added| ensures added[i].field in FieldsOf(added) {
    }
  }

  lemma FieldsOfBoth(a: seq<Candidate>, b: seq<Candidate>)
    ensures FieldsOf(a + b) == FieldsOf(a) + FieldsOf(b)
    decreases |b|
  {
    if b == [] {
      assert a + b == a;
    } else {
      var n := |b| - 1;
      FieldsOfBoth(a, b[..n]);
      FieldsAppend(a + b[..n], b[n]);
      FieldsAppend(b[..n], b[n]);
      assert a + b == (a + b[..n]) + [b[n]] && b == b[..n] + [b[n]];
    }
  }

  /** A step that may fill one field. */
  ghost predicate Fills(before: seq<Candidate>, added: seq<Candidate>, r: seq<Candidate>, blocks: seq<Block>, field: Field) {
    && AddedOk(before, r, blocks)
    && FieldsOf(added) <= FieldsOf(r) <= FieldsOf(added) + {field}
  }

  method FillScope(before: seq<Candidate>, blocks: seq<Block>, scope: Option<Block>) returns (r: seq<Candidate>)
    requires scope.Some? ==> scope.value in blocks && Strip(scope.value.text) != ""
    ensures Fills(before, [], r, blocks, WorkScope)
    ensures WorkScope !in FieldsOf(before) + FieldsOf(r) ==> scope == None && TargetComponent !in FieldsOf(before)
  {
    r := [];
    if WorkScope !in FieldsOf(before) {
      var c := ScopeCandidate(before, blocks, scope);
      r := Append(before, r, c, blocks);
    }
  }

  method FillComponents(before: seq<Candidate>, added: seq<Candidate>, blocks: seq<Block>, scope: Option<Block>)
      returns (r: seq<Candidate>)
    requires AddedOk(before, added, blocks) && InspectionComponents !in FieldsOf(added)
    requires scope.Some? ==> scope.value in blocks
    ensures Fills(before, added, r, blocks, InspectionComponents)
    ensures InspectionComponents !in FieldsOf(before) + FieldsOf(r) ==> !SomeSays(ScopeBlocks(scope, blocks), COMPONENT_TERMS)
  {
    r := added;
    if InspectionComponents !in FieldsOf(before) {
      var c := ComponentCandidate(ScopeBlocks(scope, blocks), blocks);
      r := Append(before, r, c, blocks);
    }
  }

  method FillMethods(before: seq<Candidate>, added: seq<Candidate>, blocks: seq<Block>) returns (r: seq<Candidate>)
    requires AddedOk(before, added, blocks) && InspectionMethods !in FieldsOf(added)
    ensures Fills(before, added, r, blocks, InspectionMethods)
    ensures InspectionMethods !in FieldsOf(before) + FieldsOf(r) ==> MethodMatches(MethodBlocks(blocks)) == []
  {
    r := added;
    if InspectionMethods !in FieldsOf(before) {
      var c := MethodCandidate(MethodBlocks(blocks), blocks);
      r := Append(before, r, c, blocks);
    }
  }

  method FillRisks(before: seq<Candidate>, added: seq<Candidate>, blocks: seq<Block>, fallback: Block) returns (r: seq<Candidate>)
    requires AddedOk(before, added, blocks) && RiskEvidence !in FieldsOf(added) && fallback in blocks
    ensures Fills(before, added, r, blocks, RiskEvidence)
    ensures RiskEvidence in FieldsOf(before) + FieldsOf(r)
  {
    r := added;
    if RiskEvidence !in FieldsOf(before) {
      var c := RiskCandidate(blocks, fallback);
      r := Append(before, r, Some(c), blocks);
    }
  }

  /** Everything but the scope. */
  method AddCodesAndRisks(enriched: seq<Candidate>, withScope: seq<Candidate>, blocks: seq<Block>, scope: Option<Block>)
      returns (added: seq<Candidate>)
    requires blocks != [] && (scope.Some? ==> scope.value in blocks)
    requires AddedOk(enriched, withScope, blocks) && FieldsOf(withScope) <= {WorkScope}
    ensures AddedOk(enriched, added, blocks) && FieldsOf(withScope) <= FieldsOf(added)
    ensures var fields := FieldsOf(enriched) + FieldsOf(added);
            && RiskEvidence in fields
            && (InspectionComponents !in fields ==> !SomeSays(ScopeBlocks(scope, blocks), COMPONENT_TERMS))
            && (InspectionMethods !in fields ==> MethodMatches(MethodBlocks(blocks)) == [])
  {
    added := FillComponents(enriched, withScope, blocks, scope);
    added := FillMethods(enriched, added, blocks);
    added := FillRisks(enriched, added, blocks, if scope.Some? then scope.value else blocks[0]);
  }

  method AddMissing(enriched: seq<Candidate>, blocks: seq<Block>, ghost documents: seq<Document>)
      returns (added: seq<Candidate>, scope: Option<Block>)
    requires blocks == AllBlocks(documents) && blocks != []
    ensures AddedOk(enriched, added, blocks)
    ensures scope.Some? ==> scope.value in blocks
    ensures Filled(enriched, added, blocks, scope)
  {
    scope := BestScopeBlock(blocks);
    if scope.Some? {
      AllAreNonBlank(documents, scope.value);
    }
    var withScope := FillScope(enriched, blocks, scope);
    assert FieldsOf(withScope) <= {WorkScope};
    added := AddCodesAndRisks(enriched, withScope, blocks, scope);
    FieldsOfBoth(enriched, added);
  }
}

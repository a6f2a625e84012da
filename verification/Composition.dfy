/** Tables of a generated section: cleaning reference rows, filling the personnel table, and choosing
  * what a section shows. */
module Composition {
  import opened Prelude
  import opened Text
  import opened Numerals

  type Row = seq<string>
  type Terms = seq<string>

  // ---------------------------------------------------------------- terms

  const KEYS: seq<string> :=
    ["personnel_information", "hazard_controls", "work_process_points", "inspection_tools", "safety_equipment", "ppe_items"]

  const TITLES: seq<string> :=
    ["作业人员信息表", "现场危险源及控制措施表", "作业工序和具体检测点项表", "检测工具清单", "安全器材表", "检测人员劳保清单"]

  const CORE_TERMS: seq<seq<Terms>> :=
    [[["姓名", "人员"]],
     [["危险源", "危险点", "风险"], ["控制措施", "预控措施", "措施"]],
     [["工序", "步骤", "检测项目"], ["检测点", "检测项目", "检查项目", "点项", "检测要求"]],
     [["工具", "仪器", "设备", "名称"]],
     [["器材", "工器具", "名称"]],
     [["劳保", "防护用品", "名称"]]]

  const PROJECT_SPECIFIC: Terms := ["数量", "设备编号", "仪器编号", "编号", "检验日期", "校验日期", "责任人", "备注"]

  function KeyIndex(key: string): (i: nat)
    ensures i <= |KEYS| && (i < |KEYS| ==> KEYS[i] == key)
  {
    if key == KEYS[0] then 0 else if key == KEYS[1] then 1 else if key == KEYS[2] then 2
    else if key == KEYS[3] then 3 else if key == KEYS[4] then 4 else if key == KEYS[5] then 5 else |KEYS|
  }

  /** Every group of core terms occurs in the headers, read as one line. */
  predicate MatchesKey(groups: seq<Terms>, headers: Row) {
    forall g :: 0 <= g < |groups| ==> HasTerm(JoinWith(headers, ' '), groups[g])
  }

  function FirstHeader(headers: Row, terms: Terms): (i: nat)
    ensures i <= |headers| && (i < |headers| ==> HasTerm(headers[i], terms))
    ensures forall j :: 0 <= j < i ==> !HasTerm(headers[j], terms)
  {
    if headers == [] || HasTerm(headers[0], terms) then 0 else 1 + FirstHeader(headers[1..], terms)
  }

  /** One column for each group, or nothing. */
  function CoreIndexes(groups: seq<Terms>, headers: Row): (r: Option<seq<nat>>)
    ensures r.Some? ==> |r.value| == |groups| && forall i :: 0 <= i < |r.value| ==> r.value[i] < |headers|
  {
    if groups == [] then Some([])
    else
      var before := CoreIndexes(groups[..|groups| - 1], headers);
      var i := FirstHeader(headers, groups[|groups| - 1]);
      if before == None || i == |headers| then None else Some(before.value + [i])
  }

  predicate Plain(terms: Terms) {
    forall i :: 0 <= i < |terms| ==> terms[i] != "" && ' ' !in terms[i]
  }

  /** Core terms never span two headers: when the joined headers match, every group has a column. */
  lemma {:induction false} MatchingMeansColumns(groups: seq<Terms>, headers: Row)
    requires forall g :: 0 <= g < |groups| ==> Plain(groups[g])
    ensures MatchesKey(groups, headers) <==> CoreIndexes(groups, headers).Some?
  {
    if groups != [] {
      var n := |groups| - 1;
      MatchingMeansColumns(groups[..n], headers);
      TermsAcrossHeaders(headers, groups[n]);
      assert MatchesKey(groups, headers) <==> MatchesKey(groups[..n], headers) && HasTerm(JoinWith(headers, ' '), groups[n]);
    }
  }

  lemma TermsAcrossHeaders(headers: Row, terms: Terms)
    requires Plain(terms)
    ensures HasTerm(JoinWith(headers, ' '), terms) <==> FirstHeader(headers, terms) < |headers|
  {
    forall i | 0 <= i < |terms| ensures Contains(JoinWith(headers, ' '), terms[i]) <==> InSomePiece(headers, terms[i]) {
      TermLiesInOnePiece(headers, ' ', terms[i]);
    }
    var first := FirstHeader(headers, terms);
    if first < |headers| {
      var i :| 0 <= i < |terms| && Contains(headers[first], terms[i]);
    }
    if HasTerm(JoinWith(headers, ' '), terms) {
      var i :| 0 <= i < |terms| && Contains(JoinWith(headers, ' '), terms[i]);
      var h :| 0 <= h < |headers| && Contains(headers[h], terms[i]);
      assert HasTerm(headers[h], terms);
    }
  }

  lemma CoreTermsArePlain(k: nat, g: nat)
    requires k < |CORE_TERMS| && g < |CORE_TERMS[k]|
    ensures Plain(CORE_TERMS[k][g])
  {
    forall i | 0 <= i < |CORE_TERMS[k][g]| ensures CORE_TERMS[k][g][i] != "" && ' ' !in CORE_TERMS[k][g][i] {
    }
  }

  /** For the tables at hand, the check for a missing column after the match never fires. */
  lemma MatchAlwaysHasColumns(k: nat, headers: Row)
    requires k < |CORE_TERMS| && MatchesKey(CORE_TERMS[k], headers)
    ensures CoreIndexes(CORE_TERMS[k], headers).Some? && CoreIndexes(CORE_TERMS[k], headers).value != []
  {
    forall g | 0 <= g < |CORE_TERMS[k]| ensures Plain(CORE_TERMS[k][g]) {
      CoreTermsArePlain(k, g);
    }
    MatchingMeansColumns(CORE_TERMS[k], headers);
  }

  // ---------------------------------------------------------------- reference rows

  function Squeezed(row: Row): Row {
    seq(|row|, i requires 0 <= i < |row| => Squeeze(row[i]))
  }

  function SpecificIndexes(headers: Row, n: nat): (r: seq<nat>)
    requires n <= |headers|
    ensures forall i :: i in r <==> 0 <= i < n && HasTerm(headers[i], PROJECT_SPECIFIC)
    ensures forall i, j :: 0 <= i < j < |r| ==> r[i] < r[j]
  {
    if n == 0 then []
    else
      var before := SpecificIndexes(headers, n - 1);
      assert forall i :: 0 <= i < |before| ==> before[i] in before;
      if HasTerm(headers[n - 1], PROJECT_SPECIFIC) then before + [n - 1] else before
  }

  /** A row without its project-specific values. */
  function Cleaned(specific: seq<nat>, row: Row): Row {
    seq(|row|, i requires 0 <= i < |row| => if i in specific then "" else Squeeze(row[i]))
  }

  predicate Complete(core: seq<nat>, row: Row) {
    forall i :: 0 <= i < |core| ==> core[i] < |row| && row[core[i]] != ""
  }

  predicate Usable(width: nat, core: seq<nat>, specific: seq<nat>, source: Row) {
    |source| == width && Complete(core, Cleaned(specific, source))
  }

  function CleanRows(width: nat, core: seq<nat>, specific: seq<nat>, rows: seq<Row>): seq<Row> {
    if rows == [] then []
    else
      var n := |rows| - 1;
      var before := CleanRows(width, core, specific, rows[..n]);
      var row := Cleaned(specific, rows[n]);
      if !Usable(width, core, specific, rows[n]) || row in before then before else before + [row]
  }

  function MissingInRow(title: string, headers: Row, specific: seq<nat>, number: nat): seq<string>
    requires forall i :: i in specific ==> i < |headers|
  {
    seq(|specific|, k requires 0 <= k < |specific| =>
      assert specific[k] in specific;
      title + "：第" + Decimal(number) + "行“" + headers[specific[k]] + "”")
  }

  function MissingCells(title: string, headers: Row, specific: seq<nat>, count: nat): (r: seq<string>)
    requires forall i :: i in specific ==> i < |headers|
    ensures |r| == count * |specific|
  {
    if count == 0 then []
    else MissingCells(title, headers, specific, count - 1) + MissingInRow(title, headers, specific, count)
  }

  predicate DistinctRows(rows: seq<Row>) {
    forall i, j :: 0 <= i < j < |rows| ==> rows[i] != rows[j]
  }

  predicate WellFormed(width: nat, core: seq<nat>, specific: seq<nat>, row: Row) {
    && |row| == width && Complete(core, row)
    && forall i :: i in specific && i < width ==> row[i] == ""
  }

  /** Cleaned rows have the width of the header, are blank in every project-specific column, filled in
    * every core column, pairwise distinct, and stand for exactly the usable source rows. */
  lemma {:induction false} CleanRowsAre(width: nat, core: seq<nat>, specific: seq<nat>, rows: seq<Row>)
    ensures var clean := CleanRows(width, core, specific, rows);
            && DistinctRows(clean)
            && (forall i :: 0 <= i < |clean| ==> WellFormed(width, core, specific, clean[i]))
            && (forall row :: row in clean <==>
                  exists n :: 0 <= n < |rows| && Usable(width, core, specific, rows[n]) && row == Cleaned(specific, rows[n]))
  {
    if rows != [] {
      var n := |rows| - 1;
      var front := rows[..n];
      CleanRowsAre(width, core, specific, front);
      var before, clean := CleanRows(width, core, specific, front), CleanRows(width, core, specific, rows);
      var last := Cleaned(specific, rows[n]);
      forall row ensures row in clean <==>
        exists m :: 0 <= m < |rows| && Usable(width, core, specific, rows[m]) && row == Cleaned(specific, rows[m]) {
        if row in before {
          var m :| 0 <= m < n && Usable(width, core, specific, front[m]) && row == Cleaned(specific, front[m]);
          assert rows[m] == front[m];
        }
        if exists m :: 0 <= m < |rows| && Usable(width, core, specific, rows[m]) && row == Cleaned(specific, rows[m]) {
          var m :| 0 <= m < |rows| && Usable(width, core, specific, rows[m]) && row == Cleaned(specific, rows[m]);
          assert m < n ==> rows[m] == front[m];
        }
      }
    }
  }

  /** A table with a row keeps core and project-specific columns apart. */
  lemma CoreAndSpecificApart(width: nat, core: seq<nat>, specific: seq<nat>, rows: seq<Row>)
    requires CleanRows(width, core, specific, rows) != []
    ensures forall i :: i in core ==> i !in specific
  {
    CleanRowsAre(width, core, specific, rows);
    var row := CleanRows(width, core, specific, rows)[0];
    assert WellFormed(width, core, specific, row);
    forall i | i in core ensures i !in specific {
      var k :| 0 <= k < |core| && core[k] == i;
      assert row[core[k]] != "";
    }
  }

  datatype Columns = Columns(headers: Row, core: seq<nat>, specific: seq<nat>)

  /** The columns of a table that fits the key. */
  function ColumnsOf(groups: seq<Terms>, rows: seq<Row>): Option<Columns> {
    if |rows| < 2 then None
    else
      var headers := Squeezed(rows[0]);
      var core := CoreIndexes(groups, headers);
      if headers == [] || !MatchesKey(groups, headers) || core == None || core.value == [] then None
      else Some(Columns(headers, core.value, SpecificIndexes(headers, |headers|)))
  }

  datatype Cleaning = Cleaning(rows: seq<Row>, missing: seq<string>)

  function Clean(groups: seq<Terms>, title: string, rows: seq<Row>): Cleaning {
    var columns := ColumnsOf(groups, rows);
    if columns == None then Cleaning([], [])
    else
      var Columns(headers, core, specific) := columns.value;
      var clean := CleanRows(|headers|, core, specific, rows[1..]);
      Cleaning(clean, MissingCells(title, headers, specific, |clean|))
  }

  /** What one more source row does to the clean rows. */
  lemma OneMoreRow(width: nat, core: seq<nat>, specific: seq<nat>, rows: seq<Row>, n: nat)
    requires n < |rows|
    ensures var before := CleanRows(width, core, specific, rows[..n]);
            var row := Cleaned(specific, rows[n]);
            CleanRows(width, core, specific, rows[..n + 1])
            == if !Usable(width, core, specific, rows[n]) || row in before then before else before + [row]
  {
    assert rows[..n + 1][..n] == rows[..n] && rows[..n + 1][n] == rows[n];
  }

  method CleanReferenceRows(groups: seq<Terms>, title: string, rows: seq<Row>) returns (r: Cleaning)
    ensures r == Clean(groups, title, rows)
  {
    var columns := ColumnsOf(groups, rows);
    if columns == None {
      return Cleaning([], []);
    }
    var Columns(headers, core, specific) := columns.value;
    r := CleanSources(title, headers, core, specific, rows[1..]);
  }

  method CleanSources(title: string, headers: Row, core: seq<nat>, specific: seq<nat>, sources: seq<Row>) returns (r: Cleaning)
    requires forall i :: i in specific ==> i < |headers|
    ensures r.rows == CleanRows(|headers|, core, specific, sources)
    ensures r.missing == MissingCells(title, headers, specific, |r.rows|)
  {
    var clean: seq<Row> := [];
    var missing: seq<string> := [];
    var seen: set<Row> := {};
    for n := 0 to |sources|
      invariant clean == CleanRows(|headers|, core, specific, sources[..n])
      invariant missing == MissingCells(title, headers, specific, |clean|)
      invariant forall row :: row in seen <==> row in clean
    {
      OneMoreRow(|headers|, core, specific, sources, n);
      if |sources[n]| != |headers| {
        continue;
      }
      var row := Cleaned(specific, sources[n]);
      if !Complete(core, row) || row in seen {
        continue;
      }
      seen := seen + {row};
      missing := missing + MissingInRow(title, headers, specific, |clean| + 1);
      clean := clean + [row];
    }
    assert sources[..|sources|] == sources;
    return Cleaning(clean, missing);
  }

  // ---------------------------------------------------------------- the personnel table

  datatype Person = Person(name: string, role: string, department: string, gender: string, idCard: string,
                           phone: string, certificates: string)

  const DEFAULT_HEADERS: Row := ["序号", "姓名", "岗位/职务", "联系电话", "证书及有效期"]

  predicate IsNameColumn(header: string) {
    HasTerm(header, ["姓名", "人员"])
  }

  /** `role`, `phone` and `certificates` are the person's values after the fallbacks. */
  function CellFor(header: string, number: nat, p: Person): string {
    if Contains(header, "序") then Decimal(number)
    else if IsNameColumn(header) then p.name
    else if HasTerm(header, ["岗位", "职务", "工种"]) then p.role
    else if HasTerm(header, ["部门", "单位"]) then p.department
    else if Contains(header, "性别") then (if p.gender == "male" then "男" else if p.gender == "female" then "女" else "")
    else if Contains(header, "身份证") then p.idCard
    else if HasTerm(header, ["电话", "联系"]) then p.phone
    else if HasTerm(header, ["证", "资质"]) then p.certificates
    else ""
  }

  function PersonRow(headers: Row, number: nat, p: Person): Row {
    seq(|headers|, i requires 0 <= i < |headers| => CellFor(headers[i], number, p))
  }

  predicate IsMissing(headers: Row, number: nat, p: Person, i: nat)
    requires i < |headers|
  {
    CellFor(headers[i], number, p) == "" && !IsNameColumn(headers[i])
  }

  function MissingOf(headers: Row, number: nat, p: Person, n: nat): seq<string>
    requires n <= |headers|
  {
    if n == 0 then []
    else
      var before := MissingOf(headers, number, p, n - 1);
      if IsMissing(headers, number, p, n - 1) then before + ["作业人员信息表：第" + Decimal(number) + "行“" + headers[n - 1] + "”"]
      else before
  }

  predicate AnyValue(row: Row) {
    exists i :: 0 <= i < |row| && row[i] != ""
  }

  function PersonRows(headers: Row, people: seq<Person>): seq<Row> {
    if people == [] then []
    else
      var n := |people| - 1;
      var row := PersonRow(headers, n + 1, people[n]);
      PersonRows(headers, people[..n]) + (if AnyValue(row) then [row] else [])
  }

  function PersonMissing(headers: Row, people: seq<Person>): seq<string> {
    if people == [] then []
    else
      var n := |people| - 1;
      PersonMissing(headers, people[..n]) + MissingOf(headers, n + 1, people[n], |headers|)
  }

  lemma {:induction false} PersonRowsHaveWidth(headers: Row, people: seq<Person>, i: nat)
    requires i < |PersonRows(headers, people)|
    ensures |PersonRows(headers, people)[i]| == |headers| && AnyValue(PersonRows(headers, people)[i])
  {
    if i < |PersonRows(headers, people[..|people| - 1])| {
      PersonRowsHaveWidth(headers, people[..|people| - 1], i);
    }
  }

  method PersonCells(headers: Row, number: nat, p: Person) returns (values: Row, missing: seq<string>)
    ensures values == PersonRow(headers, number, p) && missing == MissingOf(headers, number, p, |headers|)
  {
    values, missing := [], [];
    for i := 0 to |headers|
      invariant values == PersonRow(headers, number, p)[..i] && missing == MissingOf(headers, number, p, i)
    {
      var value := CellFor(headers[i], number, p);
      if value == "" && !IsNameColumn(headers[i]) {
        missing := missing + ["作业人员信息表：第" + Decimal(number) + "行“" + headers[i] + "”"];
      }
      values := values + [value];
    }
  }

  method PersonnelCells(headers: Row, people: seq<Person>) returns (rows: seq<Row>, missing: seq<string>)
    ensures rows == PersonRows(headers, people) && missing == PersonMissing(headers, people)
  {
    rows, missing := [], [];
    for n := 0 to |people|
      invariant rows == PersonRows(headers, people[..n]) && missing == PersonMissing(headers, people[..n])
    {
      assert people[..n + 1][..n] == people[..n] && people[..n + 1][n] == people[n];
      var values, blanks := PersonCells(headers, n + 1, people[n]);
      missing := missing + blanks;
      if AnyValue(values) {
        rows := rows + [values];
      }
    }
    assert people[..|people|] == people;
  }

  // ---------------------------------------------------------------- the context of a section

  datatype Slot = Slot(key: string, section: string, headers: Row, prototype: Option<nat>)

  datatype Reference = Reference(rows: seq<Row>, risks: set<string>, tags: nat, chunk: string)

  datatype Context = Context(section: string, slots: seq<Slot>, imageKeys: seq<string>, people: seq<Person>,
                             references: seq<Reference>, risks: set<string>)

  datatype Table = Table(key: string, headers: Row, rows: seq<Row>, missing: seq<string>, chunk: Option<string>,
                         prototype: Option<nat>)

  datatype BlockType = TableBlock | ImageBlock | OtherBlock

  datatype Decision = Decision(key: string, blockType: BlockType, selected: bool, missing: seq<string>)

  datatype Section = Section(body: string, tables: seq<Table>, decisions: seq<Decision>, missing: seq<string>)

  // Looking up a key that has no core terms raises.
  datatype Choice = NoSlot | NoTable | Chosen(table: Table) | UnknownKey

  function SlotFor(slots: seq<Slot>, section: string, key: string): Option<Slot> {
    if slots == [] then None
    else if slots[0].key == key && slots[0].section == section then Some(slots[0])
    else SlotFor(slots[1..], section, key)
  }

  predicate Applies(context: Context, key: string, reference: Reference, clean: Cleaning) {
    && |clean.rows| >= 2
    && (key == KEYS[1] && reference.risks != {} ==> reference.risks * context.risks != {})
  }

  function Score(reference: Reference, clean: Cleaning): nat {
    |clean.rows| * 10 + reference.tags
  }

  /** The score of each reference that applies. */
  function Scores(context: Context, key: string, groups: seq<Terms>, title: string): (r: seq<Option<nat>>)
    ensures |r| == |context.references|
  {
    seq(|context.references|, i requires 0 <= i < |context.references| =>
      var clean := Clean(groups, title, context.references[i].rows);
      if Applies(context, key, context.references[i], clean) then Some(Score(context.references[i], clean)) else None)
  }

  /** Index of the best score, the first among equals, or the number of scores. */
  function Best(scores: seq<Option<nat>>): (best: nat)
    ensures best <= |scores| && (best < |scores| ==> scores[best].Some?)
  {
    if scores == [] then 0
    else
      var n := |scores| - 1;
      var before := Best(scores[..n]);
      if scores[n] == None then (if before == n then n + 1 else before)
      else if before == n || scores[n].value > scores[before].value then n
      else before
  }

  /** No applicable reference scores higher than the chosen one. */
  lemma {:induction false} BestIsBest(scores: seq<Option<nat>>, i: nat)
    requires i < |scores| && scores[i].Some?
    ensures Best(scores) < |scores| && scores[i].value <= scores[Best(scores)].value
    ensures i < Best(scores) ==> scores[i].value < scores[Best(scores)].value
    decreases |scores|
  {
    var n := |scores| - 1;
    if i < n {
      BestIsBest(scores[..n], i);
    } else if Best(scores[..n]) < n {
      var before := Best(scores[..n]);
      BestIsBest(scores[..n], before);
    }
  }

  /** The headers shown are the reference's own, before blanks are squeezed. */
  function ReferenceTable(context: Context, key: string, slot: Slot): Choice {
    var k := KeyIndex(key);
    if k == |KEYS| then (if exists i :: 0 <= i < |context.references| && |context.references[i].rows| >= 2
                                       && context.references[i].rows[0] != [] then UnknownKey else NoTable)
    else
      var best := Best(Scores(context, key, CORE_TERMS[k], TITLES[k]));
      if best == |context.references| then NoTable
      else
        var r := context.references[best];
        var clean := Clean(CORE_TERMS[k], TITLES[k], r.rows);
        Chosen(Table(key, r.rows[0], clean.rows, clean.missing, Some(r.chunk), slot.prototype))
  }

  function PersonnelTable(context: Context, slot: Slot): Choice {
    if context.people == [] then NoTable
    else
      var headers := if slot.headers != [] then slot.headers else DEFAULT_HEADERS;
      Chosen(Table(KEYS[0], headers, PersonRows(headers, context.people), PersonMissing(headers, context.people),
                   None, slot.prototype))
  }

  function Choose(context: Context, key: string): Choice {
    var slot := SlotFor(context.slots, context.section, key);
    if slot == None then NoSlot
    else if key == KEYS[0] then PersonnelTable(context, slot.value)
    else ReferenceTable(context, key, slot.value)
  }

  /** Every chosen table is as wide as its header; a table from a reference has at least two rows, all
    * distinct and complete. */
  lemma ChosenHasWidth(context: Context, key: string)
    requires Choose(context, key).Chosen?
    ensures var t := Choose(context, key).table;
            && (forall i :: 0 <= i < |t.rows| ==> |t.rows[i]| == |t.headers|)
            && (key != KEYS[0] ==> |t.rows| >= 2 && DistinctRows(t.rows))
  {
    var slot := SlotFor(context.slots, context.section, key).value;
    var t := Choose(context, key).table;
    if key == KEYS[0] {
      forall i | 0 <= i < |t.rows| ensures |t.rows[i]| == |t.headers| {
        PersonRowsHaveWidth(t.headers, context.people, i);
      }
    } else {
      var k := KeyIndex(key);
      var r := context.references[Best(Scores(context, key, CORE_TERMS[k], TITLES[k]))];
      var Columns(headers, core, specific) := ColumnsOf(CORE_TERMS[k], r.rows).value;
      CleanRowsAre(|headers|, core, specific, r.rows[1..]);
    }
  }

  // ---------------------------------------------------------------- composing a section

  const PRIORITIES: seq<seq<string>> :=
    [["organization_measures", KEYS[0]], ["risk_identification", KEYS[1]], ["construction_plan", KEYS[2]],
     ["technical_measures", KEYS[3]], ["safety_measures", KEYS[4], KEYS[5]]]

  function ConfiguredKeys(slots: seq<Slot>, section: string): seq<string> {
    if slots == [] then []
    else
      var rest := ConfiguredKeys(slots[1..], section);
      if slots[0].section == section && slots[0].key != "" then [slots[0].key] + rest else rest
  }

  function DefaultKeys(section: string, n: nat): seq<string>
    requires n <= |PRIORITIES|
  {
    if n == 0 then []
    else if |PRIORITIES[n - 1]| > 0 && PRIORITIES[n - 1][0] == section then PRIORITIES[n - 1][1..]
    else DefaultKeys(section, n - 1)
  }

  function KeysOf(context: Context): seq<string> {
    var configured := ConfiguredKeys(context.slots, context.section);
    if configured != [] then configured else DefaultKeys(context.section, |PRIORITIES|)
  }

  /** Items are added while the growing list is searched, so none is added twice. */
  function AddNew(list: seq<string>, items: seq<string>): seq<string>
    decreases |items|
  {
    if items == [] then list
    else AddNew(if items[0] in list then list else list + [items[0]], items[1..])
  }

  datatype Draft = Draft(tables: seq<Table>, decisions: seq<Decision>, missing: seq<string>)

  function AddChoice(d: Draft, key: string, c: Choice): Draft {
    match c
    case Chosen(t) => Draft(d.tables + [t], d.decisions + [Decision(key, TableBlock, true, t.missing)], AddNew(d.missing, t.missing))
    case _ => d.(decisions := d.decisions + [Decision(key, TableBlock, false, [])])
  }

  function Choices(context: Context, keys: seq<string>): (r: seq<Choice>)
    ensures |r| == |keys|
  {
    seq(|keys|, i requires 0 <= i < |keys| => Choose(context, keys[i]))
  }

  function Drafted(keys: seq<string>, choices: seq<Choice>, missing: seq<string>): Option<Draft>
    requires |keys| == |choices|
  {
    if keys == [] then Some(Draft([], [], missing))
    else
      var n := |keys| - 1;
      var before := Drafted(keys[..n], choices[..n], missing);
      if before == None || choices[n].UnknownKey? then None else Some(AddChoice(before.value, keys[n], choices[n]))
  }

  function KeptDecisions(decisions: seq<Decision>): seq<Decision> {
    if decisions == [] then []
    else
      var rest := KeptDecisions(decisions[1..]);
      if decisions[0].blockType == OtherBlock then [decisions[0]] + rest else rest
  }

  function ImageDecisions(context: Context): seq<Decision> {
    if context.section != "emergency_plan" then []
    else seq(|context.imageKeys|, i requires 0 <= i < |context.imageKeys| => Decision(context.imageKeys[i], ImageBlock, false, []))
  }

  function Compose(section: Section, context: Context): Option<Section> {
    var keys := KeysOf(context);
    var draft := Drafted(keys, Choices(context, keys), section.missing);
    if draft == None then None else Some(Composed(section, context, draft.value))
  }

  function Composed(section: Section, context: Context, d: Draft): Section {
    section.(tables := d.tables, missing := d.missing,
             decisions := KeptDecisions(section.decisions) + d.decisions + ImageDecisions(context))
  }

  method ComposeSection(section: Section, context: Context) returns (r: Option<Section>)
    ensures r == Compose(section, context)
  {
    var keys := KeysOf(context);
    var draft := DraftTables(keys, Choices(context, keys), section.missing);
    if draft == None {
      return None;
    }
    return Some(Composed(section, context, draft.value));
  }

  method DraftTables(keys: seq<string>, choices: seq<Choice>, missing: seq<string>) returns (r: Option<Draft>)
    requires |keys| == |choices|
    ensures r == Drafted(keys, choices, missing)
  {
    var selected: seq<Table> := [];
    var decisions: seq<Decision> := [];
    var items := missing;
    for n := 0 to |keys|
      invariant Drafted(keys[..n], choices[..n], missing) == Some(Draft(selected, decisions, items))
    {
      assert keys[..n + 1][..n] == keys[..n] && choices[..n + 1][..n] == choices[..n];
      match choices[n] {
        case UnknownKey =>
          UnknownStays(keys, choices, missing, n);
          return None;
        case Chosen(t) =>
          selected := selected + [t];
          items := AddNew(items, t.missing);
          decisions := decisions + [Decision(keys[n], TableBlock, true, t.missing)];
        case _ =>
          decisions := decisions + [Decision(keys[n], TableBlock, false, [])];
      }
    }
    assert keys[..|keys|] == keys && choices[..|keys|] == choices;
    return Some(Draft(selected, decisions, items));
  }

  lemma {:induction false} UnknownStays(keys: seq<string>, choices: seq<Choice>, missing: seq<string>, n: nat)
    requires |keys| == |choices| && n < |keys| && choices[n].UnknownKey?
    ensures Drafted(keys, choices, missing) == None
    decreases |keys|
  {
    var last := |keys| - 1;
    if n < last {
      UnknownStays(keys[..last], choices[..last], missing, n);
    }
  }

  // ---------------------------------------------------------------- composing again

  lemma {:induction false} AddNewAdds(list: seq<string>, items: seq<string>)
    ensures list <= AddNew(list, items)
    ensures forall x :: x in AddNew(list, items) <==> x in list || x in items
    ensures (forall x :: x in items ==> x in list) ==> AddNew(list, items) == list
    decreases |items|
  {
    if items != [] {
      AddNewAdds(if items[0] in list then list else list + [items[0]], items[1..]);
      assert forall x :: x in items <==> x == items[0] || x in items[1..];
    }
  }

  /** Missing items of chosen tables are listed, and a list that holds them all stays as it is; tables
    * and decisions do not depend on it. */
  lemma {:induction false} DraftedAgain(keys: seq<string>, choices: seq<Choice>, missing: seq<string>, more: seq<string>)
    requires |keys| == |choices| && Drafted(keys, choices, missing).Some?
    requires forall x :: x in Drafted(keys, choices, missing).value.missing ==> x in more
    ensures Drafted(keys, choices, more) == Some(Drafted(keys, choices, missing).value.(missing := more))
    ensures missing <= Drafted(keys, choices, missing).value.missing
  {
    if keys != [] {
      var n := |keys| - 1;
      var before := Drafted(keys[..n], choices[..n], missing).value;
      if choices[n].Chosen? {
        AddNewAdds(before.missing, choices[n].table.missing);
        AddNewAdds(more, choices[n].table.missing);
      }
      DraftedAgain(keys[..n], choices[..n], missing, more);
    }
  }

  lemma {:induction false} DraftDecidesTables(keys: seq<string>, choices: seq<Choice>, missing: seq<string>)
    requires |keys| == |choices| && Drafted(keys, choices, missing).Some?
    ensures KeptDecisions(Drafted(keys, choices, missing).value.decisions) == []
  {
    if keys != [] {
      var n := |keys| - 1;
      DraftDecidesTables(keys[..n], choices[..n], missing);
      var before := Drafted(keys[..n], choices[..n], missing).value;
      var d := Drafted(keys, choices, missing).value;
      KeptAppend(before.decisions, d.decisions[|before.decisions|..]);
      assert d.decisions == before.decisions + d.decisions[|before.decisions|..];
    }
  }

  lemma {:induction false} KeptAppend(a: seq<Decision>, b: seq<Decision>)
    ensures KeptDecisions(a + b) == KeptDecisions(a) + KeptDecisions(b)
  {
    if a == [] {
      assert a + b == b;
    } else {
      assert (a + b)[1..] == a[1..] + b;
      KeptAppend(a[1..], b);
    }
  }

  lemma {:induction false} KeptOfKept(a: seq<Decision>)
    ensures KeptDecisions(KeptDecisions(a)) == KeptDecisions(a)
  {
    if a != [] {
      KeptOfKept(a[1..]);
      var rest := KeptDecisions(a[1..]);
      if a[0].blockType == OtherBlock {
        assert ([a[0]] + rest)[1..] == rest;
      }
    }
  }

  lemma {:induction false} NoImageKept(decisions: seq<Decision>)
    requires forall i :: 0 <= i < |decisions| ==> decisions[i].blockType != OtherBlock
    ensures KeptDecisions(decisions) == []
  {
    if decisions != [] {
      NoImageKept(decisions[1..]);
    }
  }

  /** Composing a composed section in the same context changes nothing, and what the section listed as
    * missing stays at the front of the list. */
  lemma ComposeIsIdempotent(section: Section, context: Context)
    requires Compose(section, context).Some?
    ensures Compose(Compose(section, context).value, context) == Compose(section, context)
    ensures section.missing <= Compose(section, context).value.missing
  {
    var once := Compose(section, context).value;
    var keys := KeysOf(context);
    var choices := Choices(context, keys);
    var draft := Drafted(keys, choices, section.missing).value;
    DraftedAgain(keys, choices, section.missing, once.missing);
    DraftDecidesTables(keys, choices, section.missing);
    var kept := KeptDecisions(section.decisions);
    KeptOfKept(section.decisions);
    NoImageKept(ImageDecisions(context));
    KeptAppend(kept + draft.decisions, ImageDecisions(context));
    KeptAppend(kept, draft.decisions);
    assert kept + [] + [] == kept;
  }

  /** The default keys of a section never show a table: they are used only when the template has no
    * slot for the section, and then there is no slot to fill. */
  lemma DefaultKeysShowNothing(section: Section, context: Context)
    requires ConfiguredKeys(context.slots, context.section) == []
    ensures Compose(section, context).Some? && Compose(section, context).value.tables == []
  {
    DefaultKeysAreNamed(context.section, |PRIORITIES|);
    var keys := KeysOf(context);
    forall i | 0 <= i < |keys| ensures Choices(context, keys)[i] == NoSlot {
      assert keys[i] in keys;
      NoSlotFor(context.slots, context.section, keys[i]);
    }
    NothingDrafted(keys, Choices(context, keys), section.missing);
  }

  lemma {:induction false} DefaultKeysAreNamed(section: string, n: nat)
    requires n <= |PRIORITIES|
    ensures forall k :: k in DefaultKeys(section, n) ==> k != ""
  {
    if n > 0 {
      DefaultKeysAreNamed(section, n - 1);
    }
  }

  lemma {:induction false} NoSlotFor(slots: seq<Slot>, section: string, key: string)
    requires ConfiguredKeys(slots, section) == [] && key != ""
    ensures SlotFor(slots, section, key) == None
  {
    if slots != [] {
      NoSlotFor(slots[1..], section, key);
    }
  }

  lemma {:induction false} NothingDrafted(keys: seq<string>, choices: seq<Choice>, missing: seq<string>)
    requires |keys| == |choices| && forall i :: 0 <= i < |choices| ==> choices[i] == NoSlot
    ensures Drafted(keys, choices, missing).Some? && Drafted(keys, choices, missing).value.tables == []
  {
    if keys != [] {
      var n := |keys| - 1;
      NothingDrafted(keys[..n], choices[..n], missing);
    }
  }
}

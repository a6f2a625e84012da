/** Enriching fact candidates: codes and scope read off the parsed blocks, each anchored in a block that
  * says so, and each acceptable to the validator. */
module CanonicalFacts {
  import opened Prelude
  import opened Text
  import opened FactTerms

  datatype Document = Document(version: nat, blocks: seq<string>)

  // A block with the version of its document.
  datatype Block = Block(version: nat, text: string)

  datatype Candidate = Candidate(field: Field, value: Value, version: nat, anchor: string, quote: string)

  // The two regular expressions, as what their group captures in a text.
  datatype Patterns = Patterns(projectName: string -> Option<string>, workScope: string -> Option<string>)

  function Texts(blocks: seq<Block>): seq<string> {
    seq(|blocks|, i requires 0 <= i < |blocks| => blocks[i].text)
  }

  function FromBlock(field: Field, value: Value, block: Block): Candidate {
    var clean := Strip(block.text);
    Candidate(field, value, block.version, block.text, if |clean| <= 200 then clean else clean[..200])
  }

  // ---------------------------------------------------------------- first block that says so

  predicate Says(block: Block, catalog: Catalog) {
    HitsCatalog(block.text, catalog)
  }

  predicate SomeSays(blocks: seq<Block>, catalog: Catalog) {
    exists i :: 0 <= i < |blocks| && Says(blocks[i], catalog)
  }

  /** `_first_matching_block`: it must not run out of blocks. */
  method FirstMatchingBlock(blocks: seq<Block>, catalog: Catalog) returns (first: Block)
    requires SomeSays(blocks, catalog)
    ensures exists i :: 0 <= i < |blocks| && first == blocks[i] && Says(first, catalog)
                        && forall j :: 0 <= j < i ==> !Says(blocks[j], catalog)
  {
    var i := 0;
    while !Says(blocks[i], catalog)
      invariant i < |blocks|
      invariant forall j :: 0 <= j < i ==> !Says(blocks[j], catalog)
      decreases |blocks| - i
    {
      i := i + 1;
      if i == |blocks| {
        assert false;
      }
    }
    return blocks[i];
  }

  lemma HitInTexts(texts: seq<string>, blocks: seq<Block>, catalog: Catalog, codes: seq<string>)
    requires IsCatalog(catalog, codes) && |texts| == |blocks|
    requires forall i, term :: 0 <= i < |blocks| && Contains(texts[i], term) ==> Contains(blocks[i].text, term)
    requires HitsCatalog(JoinWith(texts, '\n'), catalog)
    ensures SomeSays(blocks, catalog)
  {
    var e :| 0 <= e < |catalog| && HasTerm(JoinWith(texts, '\n'), catalog[e].terms);
    TermsInJoined(texts, catalog[e].terms);
    var t :| 0 <= t < |texts| && HasTerm(texts[t], catalog[e].terms);
    var i :| 0 <= i < |catalog[e].terms| && Contains(texts[t], catalog[e].terms[i]);
    assert HasTerm(blocks[t].text, catalog[e].terms);
    assert Says(blocks[t], catalog);
  }

  // ---------------------------------------------------------------- codes

  /** `_catalog_matches`. */
  function CatalogMatches(blocks: seq<Block>, catalog: Catalog): seq<string> {
    MatchingCodes(JoinWith(Texts(blocks), '\n'), catalog)
  }

  /** `_method_matches`: ultrasonic testing counts only where it is left after the phased-array terms
    * have been erased. */
  function MethodMatches(blocks: seq<Block>): seq<string> {
    var text := JoinWith(Texts(blocks), '\n');
    TermsAreWords();
    (if HasTerm(EraseAll(text, PAUT_TERMS), UT_TERMS) then ["UT"] else [])
    + (if HasTerm(text, PAUT_TERMS) then ["PAUT"] else [])
  }

  lemma TermsAreWords()
    ensures AreWords(PAUT_TERMS) && AreWords(UT_TERMS)
  {
    MethodsAreCatalog();
    assert METHOD_TERMS[0].terms == UT_TERMS && METHOD_TERMS[1].terms == PAUT_TERMS;
  }

  /** Codes found in joined blocks are those of the single blocks, all acceptable, and if there are any,
    * some block says so. */
  lemma MatchesAreSaid(blocks: seq<Block>, catalog: Catalog, codes: seq<string>)
    requires IsCatalog(catalog, codes)
    ensures CatalogMatches(blocks, catalog) == CodesInTexts(Texts(blocks), catalog)
    ensures CatalogMatches(blocks, catalog) != [] <==> SomeSays(blocks, catalog)
    ensures CatalogMatches(blocks, catalog) != [] ==> CodesValid(CatalogMatches(blocks, catalog), codes)
  {
    var text := JoinWith(Texts(blocks), '\n');
    CodesOfJoined(Texts(blocks), catalog, codes);
    CodesAreAllowed(text, catalog, codes);
    if HitsCatalog(text, catalog) {
      HitInTexts(Texts(blocks), blocks, catalog, codes);
    }
    if SomeSays(blocks, catalog) {
      var b :| 0 <= b < |blocks| && Says(blocks[b], catalog);
      var e :| 0 <= e < |catalog| && HasTerm(blocks[b].text, catalog[e].terms);
      assert HasTerm(Texts(blocks)[b], catalog[e].terms);
      TermsInJoined(Texts(blocks), catalog[e].terms);
    }
  }

  lemma SaysTerms(blocks: seq<Block>, e: nat)
    requires e < |METHOD_TERMS| && SomeHasTerm(Texts(blocks), METHOD_TERMS[e].terms)
    ensures SomeSays(blocks, METHOD_TERMS)
  {
    var b :| 0 <= b < |blocks| && HasTerm(Texts(blocks)[b], METHOD_TERMS[e].terms);
    assert HasTerm(blocks[b].text, METHOD_TERMS[e].terms);
    assert Says(blocks[b], METHOD_TERMS);
  }

  /** Some block still names ultrasonic testing after the phased-array terms are erased from it. */
  predicate NamesUtAfterErasing(blocks: seq<Block>)
    requires AreWords(PAUT_TERMS)
  {
    exists i :: 0 <= i < |blocks| && HasTerm(EraseAll(blocks[i].text, PAUT_TERMS), UT_TERMS)
  }

  lemma UtAfterErasing(blocks: seq<Block>)
    requires AreWords(PAUT_TERMS) && AreWords(UT_TERMS)
    ensures HasTerm(EraseAll(JoinWith(Texts(blocks), '\n'), PAUT_TERMS), UT_TERMS) <==> NamesUtAfterErasing(blocks)
  {
    var erased := ErasedAll(Texts(blocks), PAUT_TERMS);
    EraseJoined(Texts(blocks), PAUT_TERMS);
    TermsInJoined(erased, UT_TERMS);
    forall i | 0 <= i < |blocks| ensures erased[i] == EraseAll(blocks[i].text, PAUT_TERMS) {
      assert Texts(blocks)[i] == blocks[i].text;
    }
  }

  /** Phased-array testing is found if and only if a block names it, ultrasonic testing if and only if a block
    * names it once the phased-array terms are erased from that block. Erasing can create a term, but only
    * where a phased-array term stood; so whenever methods are found, some block says so. */
  lemma MethodsAreSaid(blocks: seq<Block>)
    ensures AreWords(PAUT_TERMS)
    ensures "PAUT" in MethodMatches(blocks) <==> SomeHasTerm(Texts(blocks), PAUT_TERMS)
    ensures "UT" in MethodMatches(blocks) <==> NamesUtAfterErasing(blocks)
    ensures !SomeHasTerm(Texts(blocks), PAUT_TERMS) ==>
              ("UT" in MethodMatches(blocks) <==> SomeHasTerm(Texts(blocks), UT_TERMS))
    ensures forall code :: code in MethodMatches(blocks) ==> code == "UT" || code == "PAUT"
    ensures MethodMatches(blocks) != [] ==> SomeSays(blocks, METHOD_TERMS) && CodesValid(MethodMatches(blocks), METHOD_CODES)
  {
    var text := JoinWith(Texts(blocks), '\n');
    TermsAreWords();
    UtAfterErasing(blocks);
    TermsInJoined(Texts(blocks), PAUT_TERMS);
    TermsInJoined(Texts(blocks), UT_TERMS);
    var ut, paut := HasTerm(EraseAll(text, PAUT_TERMS), UT_TERMS), HasTerm(text, PAUT_TERMS);
    assert MethodMatches(blocks) == (if ut then ["UT"] else []) + (if paut then ["PAUT"] else []);
    MatchesOf(ut, paut);
    assert METHOD_TERMS[0].terms == UT_TERMS && METHOD_TERMS[1].terms == PAUT_TERMS;
    if paut {
      SaysTerms(blocks, 1);
    } else {
      EraseAllNothing(text, PAUT_TERMS);
      if ut {
        SaysTerms(blocks, 0);
      }
    }
  }

  lemma MatchesOf(ut: bool, paut: bool)
    ensures var codes := (if ut then ["UT"] else []) + (if paut then ["PAUT"] else []);
            && ("UT" in codes <==> ut) && ("PAUT" in codes <==> paut)
            && (forall code :: code in codes ==> code == "UT" || code == "PAUT")
            && (codes != [] ==> CodesValid(codes, METHOD_CODES))
  {
    MethodsAreCatalog();
    assert METHOD_TERMS[0].code == "UT" && METHOD_TERMS[1].code == "PAUT";
    assert |"UT"| == 2 && |"PAUT"| == 4;
  }

  const SPLICED := Block(0, "超声相控阵检测检测")

  lemma SplicedShowsUt()
    ensures HasTerm("超声检测", UT_TERMS)
  {
    var text := "超声检测";
    assert OccursAt(text, UT_TERMS[1], 0);
    assert Contains(text, UT_TERMS[1]);
  }

  /** Ultrasonic testing can be reported although no block names it. */
  lemma ErasingMakesTerms()
    ensures "UT" in MethodMatches([SPLICED]) && !SomeHasTerm(Texts([SPLICED]), UT_TERMS)
  {
    assert JoinWith(Texts([SPLICED]), '\n') == SPLICED.text;
    TermsAreWords();
    SplicedErases();
    SplicedShowsUt();
    NoUltrasound();
  }

  lemma UtStarts(t: nat)
    requires t < |UT_TERMS|
    ensures |UT_TERMS[t]| > 2 && (UT_TERMS[t][0] == '超' || UT_TERMS[t][0] == '电') && UT_TERMS[t][2] != '相'
  {
  }

  lemma NoUltrasound()
    ensures !SomeHasTerm(Texts([SPLICED]), UT_TERMS)
  {
    var text := SPLICED.text;
    forall t, k | 0 <= t < |UT_TERMS| && 0 <= k <= |text| ensures !OccursAt(text, UT_TERMS[t], k) {
      var n := |UT_TERMS[t]|;
      if k + n <= |text| {
        var part := text[k..k + n];
        assert part[0] == text[k] && part[2] == text[k + 2];
        UtStarts(t);
        assert (text[k] == '超' ==> k == 0) && text[k] != '电';
        assert text[2] == '相';
      }
    }
  }

  lemma SplicedErases()
    requires AreWords(PAUT_TERMS)
    ensures EraseAll(SPLICED.text, PAUT_TERMS) == "超声检测"
  {
    var text := SPLICED.text;
    assert EraseAll(text, PAUT_TERMS[..0]) == text;
    FirstErasesNothing(text);
    SecondErases(text);
    assert PAUT_TERMS[..1][..0] == PAUT_TERMS[..0] && PAUT_TERMS[..2][..1] == PAUT_TERMS[..1];
    assert PAUT_TERMS[..3] == PAUT_TERMS;
    assert EraseAll(text, PAUT_TERMS[..1]) == text;
    assert EraseAll(text, PAUT_TERMS[..2]) == "超声检测";
  }

  lemma FirstErasesNothing(text: string)
    requires text == SPLICED.text
    ensures Erase(text, PAUT_TERMS[0]) == text
  {
    forall k | 0 <= k <= |text| ensures !OccursAt(text, PAUT_TERMS[0], k) {
      if k + 5 <= |text| {
        var part := text[k..k + 5];
        assert part[0] == text[k] && part[3] == text[k + 3];
      }
    }
    EraseNothing(text, PAUT_TERMS[0]);
  }

  lemma SecondErases(text: string)
    requires text == SPLICED.text
    ensures Erase(text, PAUT_TERMS[1]) == "超声检测"
  {
    var term := PAUT_TERMS[1];
    assert text[0] != term[0] && text[1] != term[0];
    assert text[..5][0] == text[0] && text[1..][..5][0] == text[1];
    assert text[1..][1..] == "相控阵检测检测";
    assert "相控阵检测检测"[..5] == term && "相控阵检测检测"[5..] == "检测";
    assert Erase("相控阵检测检测", term) == "检测";
    assert Erase(text[1..], term) == [text[1]] + "检测";
  }
}

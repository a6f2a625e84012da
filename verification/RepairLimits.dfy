/** Where repair does not settle: a public folder with a container's code that sorts before the container. */
module RepairLimits {
  import opened Prelude
  import opened Forest
  import opened Folders
  import opened FolderGraph
  import opened Repair
  import opened RepairGraph
  import opened RepairHomes
  import opened RepairProof
  import opened RepairClean

  const ROOT_ROW := Folder(None, None, ARCHIVE_ROOT.name, ARCHIVE_ROOT.code, ARCHIVE_ROOT.sortOrder, true, true)
  const YEAR_ROW := Folder(None, Some(1), YearName(2024), YearCode(2024), 2024, true, false)
  const CONTAINER_ROW := Folder(Some(1), Some(2), "T", ContainerCode(1), 1, true, false)
  const ENTRY_ROW := Folder(None, None, ENTRY_ROOT.name, ENTRY_ROOT.code, ENTRY_ROOT.sortOrder, true, true)
  const PUBLIC_ROW := Folder(None, Some(4), "A", ContainerCode(1), 0, true, false)

  const ROWS: Tree := map[1 := ROOT_ROW, 2 := YEAR_ROW, 3 := CONTAINER_ROW, 4 := ENTRY_ROW, 5 := PUBLIC_ROW]

  /** Document 1 lies in its project's container, document 2 in a public folder, below a system root, that
    * carries the container's code and sorts first. */
  const BEFORE: World :=
    World(ROWS, map[1 := Project(Archived, Some(2024), "T")],
          map[1 := Document(Some(1), 3, false), 2 := Document(Some(1), 5, false)], 6, 3)

  const ENTRY_COPY := Folder(Some(1), Some(3), ENTRY_ROOT.name, ENTRY_ROOT.code, ENTRY_ROOT.sortOrder, true, false)
  const PUBLIC_COPY := Folder(Some(1), Some(6), "A", ContainerCode(1), 0, true, false)

  const COPIED: Tree := ROWS[6 := ENTRY_COPY][7 := PUBLIC_COPY]

  const AFTER: World :=
    BEFORE.(folders := COPIED, nextFolder := 8, documents := BEFORE.documents[2 := Document(Some(1), 7, false)])

  lemma EntryIsNoArchive()
    ensures ENTRY_ROOT.code != ARCHIVE_ROOT.code && !Names(ARCHIVE_ROOT, ENTRY_ROOT.name) && !Names(ARCHIVE_ROOT, "A")
    ensures forall p :: ENTRY_ROOT.code != ContainerCode(p)
  {
    assert |ENTRY_ROOT.code| == 17 && |ARCHIVE_ROOT.code| == 14;
    assert |ARCHIVE_ROOT.name| == 5 && |ENTRY_ROOT.name| == 6;
    assert forall i :: 0 <= i < |ARCHIVE_ROOT.aliases| ==> |ARCHIVE_ROOT.aliases[i]| == 4;
    forall p ensures ENTRY_ROOT.code != ContainerCode(p) {
      assert ContainerCode(p)[1] == 'R' && ENTRY_ROOT.code[1] == 'U';
    }
  }

  lemma RootHasOwnCode()
    ensures ArchiveRoots(ROWS) == {1}
  {
    ArchiveCodesAreClean(2024);
    EntryIsNoArchive();
  }

  lemma EntryComesFirst()
    ensures RootIndex([ENTRY_ROW, PUBLIC_ROW]) == 0 && DefinitionFor(ENTRY_ROW, STANDARD_ROOTS) == Some(ENTRY_ROOT)
  {
  }

  lemma RowsAreAForest()
    ensures IsForest(ROWS)
  {
    assert Up(ROWS, Some(1), 1) == None;
    assert Up(ROWS, Some(4), 1) == None;
    EndsStep(ROWS, 2);
    EndsStep(ROWS, 3);
    EndsStep(ROWS, 5);
  }

  lemma RowsFit()
    ensures Shares(ROWS) && (forall x <- ROWS :: x < 6) && DocumentsFit(BEFORE)
  {
  }

  lemma RowsAreSound()
    ensures SoundWorld(BEFORE) && DocumentsFit(BEFORE)
  {
    RowsAreAForest();
    RowsFit();
  }

  lemma OneContainer()
    ensures Containers(ROWS, 1) == {3} && WithCode(ROWS, 1, ENTRY_ROOT.code) == {}
  {
    EntryIsNoArchive();
  }

  lemma FirstStands()
    ensures ActiveContainers(ROWS, 1) == {3} && FirstOf(ROWS, {3}) == 3
    ensures Below(ROWS, 3, 3) && !Below(ROWS, 5, 3)
  {
    OneContainer();
    BelowSelf(ROWS, 3);
    BelowUnfold(ROWS, 5, 3);
    BelowUnfold(ROWS, 4, 3);
  }

  lemma ChainStands()
    ensures GetYearFolder(ROWS, 6, 2024) == Ok(Placed(ROWS, 2, 6))
    ensures GetContainer(ROWS, 6, 2, 1, "T") == Ok(Placed(ROWS, 3, 6))
  {
    RootHasOwnCode();
    assert ROWS[1 := ROOT_ROW] == ROWS;
    assert YearFolders(ROWS, 1, 2024) == {2};
    assert ROWS[2 := YEAR_ROW] == ROWS;
    OneContainer();
    assert ROWS[3 := CONTAINER_ROW] == ROWS;
  }

  lemma RootIsCopied()
    ensures PlaceRoot(ROWS, 6, 1, 3, ENTRY_ROOT) == Placed(ROWS[6 := ENTRY_COPY], 6, 7)
  {
    OneContainer();
  }

  lemma PublicIsCopied()
    ensures Namesakes(ROWS[6 := ENTRY_COPY], 1, 6, "A") == {}
    ensures CopyChain(ROWS[6 := ENTRY_COPY], 7, 1, 6, [PUBLIC_ROW]) == Placed(COPIED, 7, 8)
    ensures Copied(ROWS[6 := ENTRY_COPY], 7, 1, 6, [PUBLIC_ROW]) == [PUBLIC_ROW]
  {
    var t := ROWS[6 := ENTRY_COPY];
    assert [PUBLIC_ROW][1..] == [];
    assert CopyChain(t, 7, 1, 6, [PUBLIC_ROW]) == CopyChain(COPIED, 8, 1, 7, []);
  }

  lemma CopyStands()
    ensures PlaceTarget(ROWS, 6, 1, 3, [ENTRY_ROW, PUBLIC_ROW]) == Placed(COPIED, 7, 8)
    ensures CopiedBelow(ROWS, 6, 1, 3, [ENTRY_ROW, PUBLIC_ROW]) == [PUBLIC_ROW]
  {
    EntryComesFirst();
    RootIsCopied();
    PublicIsCopied();
    assert [ENTRY_ROW, PUBLIC_ROW][1..] == [PUBLIC_ROW];
  }

  lemma ChainOfPublic()
    ensures Sources(ROWS, ROWS, 5) == [ENTRY_ROW, PUBLIC_ROW]
  {
    ViewOfNow(ROWS, 5);
    assert Chain(ROWS, None, {5, 4}) == [];
    assert {5} + {4} == {5, 4} && {} + {5} == {5};
    assert Chain(ROWS, Some(4), {5}) == [4];
    assert Chain(ROWS, Some(5), {}) == [4, 5];
  }

  lemma SecondMoves()
    ensures RepairDocument(BEFORE, BEFORE, 2, false).Ok?
    ensures RepairDocument(BEFORE, BEFORE, 2, false).value.world == AFTER
    ensures RepairDocument(BEFORE, BEFORE, 1, false) == Ok(Outcome(BEFORE, []))
  {
    FirstStands();
    ViewOfNow(ROWS, 5);
    ViewOfNow(ROWS, 3);
    ChainStands();
    CopyStands();
    ChainOfPublic();
  }

  lemma OrderOfTwo()
    ensures InOrder(Due(BEFORE)) == [1, 2]
  {
    assert Due(BEFORE) == {1, 2};
    assert Least({1, 2}) == 1;
    assert {1, 2} - {1} == {2};
    assert Least({2}) == 2;
    assert {2} - {2} == {};
    assert InOrder({2}) == [2] + InOrder({});
    assert InOrder({1, 2}) == [1] + InOrder({2});
  }

  lemma RunMoves()
    ensures RepairAll(BEFORE, false).Ok? && RepairAll(BEFORE, false).value.world == AFTER
  {
    OrderOfTwo();
    InOrderLists(Due(BEFORE));
    SecondMoves();
    assert [1, 2][1..] == [2] && [2][1..] == [];
    assert RepairFrom(BEFORE, AFTER, [], false).Ok?;
    assert RepairFrom(BEFORE, BEFORE, [2], false).Ok?;
  }

  lemma CopyComesFirst()
    ensures ActiveContainers(COPIED, 1) == {3, 7} && FirstOf(COPIED, {3, 7}) == 7
    ensures !Below(COPIED, 3, 7)
  {
    EntryIsNoArchive();
    assert Containers(COPIED, 1) == {3, 7};
    FirstIs(COPIED, {3, 7}, 7);
    BelowUnfold(COPIED, 3, 7);
    BelowUnfold(COPIED, 2, 7);
    BelowUnfold(COPIED, 1, 7);
  }

  lemma SecondUnsettles()
    ensures 1 in Due(AFTER) && !Settled(AFTER, 1)
  {
    CopyComesFirst();
  }

  /** The copied code takes the place of the container: a document that was settled is not any more, and the
    * condition fails as it must. */
  lemma RepairCanUnsettle()
    ensures SoundWorld(BEFORE) && DocumentsFit(BEFORE) && !PublicCodesClean(BEFORE.folders)
    ensures 1 in Due(BEFORE) && Settled(BEFORE, 1)
    ensures RepairAll(BEFORE, false).Ok? && RepairAll(BEFORE, false).value.world == AFTER
    ensures 1 in Due(AFTER) && !Settled(AFTER, 1)
    ensures (forall d <- InOrder(Due(BEFORE)) :: d in Due(BEFORE)) && !KeepsHomes(BEFORE, BEFORE, InOrder(Due(BEFORE)))
  {
    RowsAreSound();
    FirstStands();
    RunMoves();
    SecondUnsettles();
    assert ROWS[5].project == None && ROWS[5].code == ContainerCode(1);
    RepairSettlesIff(BEFORE);
  }
}

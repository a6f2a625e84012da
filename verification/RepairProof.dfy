/** A completed repair leaves every live document of an archived project in that project's archive
  * container, and a second one finds nothing to do, exactly when no copied folder takes the place of a
  * container that other documents rely on. */
module RepairProof {
  import opened Prelude
  import opened Forest
  import opened Folders
  import opened FolderGraph
  import opened Repair
  import opened RepairGraph
  import opened RepairHomes

  ghost predicate Settled(w: World, d: DocumentId)
    requires d in Due(w)
  {
    w.projects[w.documents[d].project.value].year.Some? ==>
      Homed(w.folders, w.documents[d].folder, w.documents[d].project.value)
  }

  ghost predicate AllSettled(w: World, ids: seq<DocumentId>) {
    forall d <- ids :: d in Due(w) && Settled(w, d)
  }

  lemma DueIsKept(w: World, v: World)
    requires Moves(w, v)
    ensures Due(v) == Due(w)
  {
    forall d ensures d in Due(v) <==> d in Due(w) {
      assert d in w.documents <==> d in v.documents;
    }
  }

  function Owner(w: World, d: DocumentId): ProjectId
    requires d in Due(w)
  {
    w.documents[d].project.value
  }

  // ---------------------------------------------------------------- the condition

  /** Repairing d copies a folder that sorts before the container of d's project and carries its code. */
  ghost predicate Displaces(w0: World, w: World, d: DocumentId)
    requires d in Due(w0)
  {
    var p := Owner(w0, d);
    && w0.projects[p].year.Some? && NeedsRepair(w0.folders, w.folders, w0.documents[d], p)
    && Demotes(w.folders, w.nextFolder, p, w0.projects[p], w0.projects[p].year.value,
               Sources(w0.folders, w.folders, w0.documents[d].folder))
  }

  /** No other document of d's project is due. */
  ghost predicate Alone(w: World, d: DocumentId)
    requires d in Due(w)
  {
    forall e <- Due(w) :: Owner(w, e) == Owner(w, d) ==> e == d
  }

  /** Along the run, a container is displaced only for a document that is alone in its project. */
  ghost predicate KeepsHomes(w0: World, w: World, ids: seq<DocumentId>)
    requires forall d <- ids :: d in Due(w0)
    decreases |ids|
  {
    ids == [] ||
    (var d := ids[0];
     assert d in ids;
     && (Displaces(w0, w, d) ==> Alone(w0, d))
     && (RepairDocument(w0, w, d, false).Ok? ==> KeepsHomes(w0, RepairDocument(w0, w, d, false).value.world, ids[1..])))
  }

  // ---------------------------------------------------------------- what a run keeps

  ghost predicate PublicStays(t: Tree, u: Tree) {
    forall x <- t :: t[x].project == None ==> x in u && u[x].project == None && u[x].parent == t[x].parent
  }

  ghost predicate Going(w0: World, w: World, ids: seq<DocumentId>) {
    && SoundWorld(w0) && DocumentsFit(w0) && SoundWorld(w) && Moves(w0, w) && PublicStays(w0.folders, w.folders)
    && Unrepeated(ids) && Waiting(w0, w, ids)
  }

  lemma MovesTransitive(w: World, v: World, u: World)
    requires Moves(w, v) && Moves(v, u)
    ensures Moves(w, u)
  {
  }

  lemma FramePublicStays(t: Tree, u: Tree, v: Tree, p: ProjectId)
    requires PublicStays(t, u) && Frame(u, v, p)
    ensures PublicStays(t, v)
  {
  }

  /** What the repair of one document does when it has to move it. */
  lemma MovedShape(w0: World, w: World, d: DocumentId)
    requires d in Due(w0) && w0.projects[Owner(w0, d)].year.Some?
    requires RepairDocument(w0, w, d, false).Ok? && NeedsRepair(w0.folders, w.folders, w0.documents[d], Owner(w0, d))
    ensures var document := w0.documents[d];
            var p := Owner(w0, d);
            var r := PlaceDocument(w.folders, w.nextFolder, p, w0.projects[p], w0.projects[p].year.value,
                                   Sources(w0.folders, w.folders, document.folder));
            && r.Ok?
            && RepairDocument(w0, w, d, false).value.world
               == w.(folders := r.value.folders, nextFolder := r.value.next,
                     documents := w.documents[d := document.(folder := r.value.id)])
  {
  }

  lemma SelfFrame(t: Tree, p: ProjectId)
    ensures Frame(t, t, p)
  {
    forall q | q != p ensures SameRows(t, t, q) {
    }
  }

  lemma MovedDocument(w0: World, w: World, d: DocumentId)
    requires SoundWorld(w) && d in Due(w0) && d in w.documents && w0.projects[Owner(w0, d)].year.Some?
    requires RepairDocument(w0, w, d, false).Ok? && NeedsRepair(w0.folders, w.folders, w0.documents[d], Owner(w0, d))
    ensures var v := RepairDocument(w0, w, d, false).value.world;
            var p := Owner(w0, d);
            && Frame(w.folders, v.folders, p) && d in v.documents && Homed(v.folders, v.documents[d].folder, p)
            && (if Displaces(w0, w, d) then Displaced(v.folders, w.folders.Keys, p)
                else Steady(w.folders, v.folders, p))
  {
    MovedShape(w0, w, d);
    var p := Owner(w0, d);
    DocumentIsPlaced(w.folders, w.nextFolder, p, w0.projects[p], w0.projects[p].year.value,
                     Sources(w0.folders, w.folders, w0.documents[d].folder));
  }

  lemma UnmovedDocument(w0: World, w: World, d: DocumentId)
    requires d in Due(w0)
    requires w0.projects[Owner(w0, d)].year == None || !NeedsRepair(w0.folders, w.folders, w0.documents[d], Owner(w0, d))
    ensures RepairDocument(w0, w, d, false) == Ok(Outcome(w, [])) && !Displaces(w0, w, d)
    ensures Frame(w.folders, w.folders, Owner(w0, d)) && Steady(w.folders, w.folders, Owner(w0, d))
  {
    SelfFrame(w.folders, Owner(w0, d));
    SteadySelf(w.folders, Owner(w0, d));
  }

  /** One document's repair, whatever it meets. */
  lemma OneDocument(w0: World, w: World, d: DocumentId)
    requires SoundWorld(w) && d in Due(w0) && d in w.documents && w.documents[d] == w0.documents[d]
    requires RepairDocument(w0, w, d, false).Ok?
    ensures var v := RepairDocument(w0, w, d, false).value.world;
            var p := Owner(w0, d);
            && Moves(w, v) && (forall e <- w.documents :: e != d ==> v.documents[e] == w.documents[e])
            && Frame(w.folders, v.folders, p)
            && (if Displaces(w0, w, d) then Displaced(v.folders, w.folders.Keys, p) else Steady(w.folders, v.folders, p))
  {
    DocumentMoves(w0, w, d, false);
    if w0.projects[Owner(w0, d)].year.Some? && NeedsRepair(w0.folders, w.folders, w0.documents[d], Owner(w0, d)) {
      MovedDocument(w0, w, d);
    } else {
      UnmovedDocument(w0, w, d);
    }
  }

  lemma GoingOn(w0: World, w: World, ids: seq<DocumentId>)
    requires Going(w0, w, ids) && ids != [] && ids[0] in Due(w0) && RepairDocument(w0, w, ids[0], false).Ok?
    ensures Going(w0, RepairDocument(w0, w, ids[0], false).value.world, ids[1..])
  {
    assert ids[0] in ids;
    OneDocument(w0, w, ids[0]);
    var one := RepairDocument(w0, w, ids[0], false).value.world;
    MovesKeepsSound(w, one);
    MovesTransitive(w0, w, one);
    FramePublicStays(w0.folders, w.folders, one.folders, Owner(w0, ids[0]));
    TailWaits(w0, w, one, ids);
  }

  // ---------------------------------------------------------------- harmless runs settle

  /** The projects of the documents still to come are as they were. */
  ghost predicate SteadyFor(w0: World, w: World, ids: seq<DocumentId>)
    requires forall d <- ids :: d in Due(w0)
  {
    forall d <- ids :: Steady(w0.folders, w.folders, Owner(w0, d))
  }

  lemma OthersAreSteady(w0: World, w: World, d: DocumentId, q: ProjectId)
    requires SoundWorld(w) && d in Due(w0) && d in w.documents && w.documents[d] == w0.documents[d]
    requires RepairDocument(w0, w, d, false).Ok? && (Displaces(w0, w, d) ==> q != Owner(w0, d))
    ensures Steady(w.folders, RepairDocument(w0, w, d, false).value.world.folders, q)
  {
    OneDocument(w0, w, d);
    if q != Owner(w0, d) {
      UntouchedIsSteady(w.folders, RepairDocument(w0, w, d, false).value.world.folders, q);
    }
  }

  lemma DocumentSettles(w0: World, w: World, d: DocumentId)
    requires SoundWorld(w0) && DocumentsFit(w0) && SoundWorld(w) && Moves(w0, w) && PublicStays(w0.folders, w.folders)
    requires d in Due(w0) && d in w.documents && w.documents[d] == w0.documents[d]
    requires Steady(w0.folders, w.folders, Owner(w0, d)) && RepairDocument(w0, w, d, false).Ok?
    ensures var v := RepairDocument(w0, w, d, false).value.world;
            d in Due(v) && Settled(v, d)
  {
    OneDocument(w0, w, d);
    var v := RepairDocument(w0, w, d, false).value.world;
    MovesTransitive(w0, w, v);
    DueIsKept(w0, v);
    var p := Owner(w0, d);
    if w0.projects[p].year.Some? {
      if NeedsRepair(w0.folders, w.folders, w0.documents[d], p) {
        MovedDocument(w0, w, d);
      } else {
        UnmovedDocument(w0, w, d);
        SkippedIsHomed(w0.folders, w.folders, w0.documents[d].folder, p);
      }
    }
  }

  /** A settled document stays settled, unless its project's container is displaced. */
  lemma SettledStays(w0: World, w: World, d: DocumentId, e: DocumentId)
    requires SoundWorld(w0) && SoundWorld(w) && Moves(w0, w)
    requires d in Due(w0) && d in w.documents && w.documents[d] == w0.documents[d] && RepairDocument(w0, w, d, false).Ok?
    requires e in Due(w0) && e != d && e in Due(w) && Settled(w, e) && (Displaces(w0, w, d) ==> Alone(w0, d))
    ensures var v := RepairDocument(w0, w, d, false).value.world; e in Due(v) && Settled(v, e)
  {
    OneDocument(w0, w, d);
    var v := RepairDocument(w0, w, d, false).value.world;
    DueIsKept(w, v);
    assert Owner(w, e) == Owner(w0, e);
    OthersAreSteady(w0, w, d, Owner(w0, e));
  }

  lemma SteadyGoesOn(w0: World, w: World, ids: seq<DocumentId>)
    requires Going(w0, w, ids) && ids != [] && (forall d <- ids :: d in Due(w0)) && SteadyFor(w0, w, ids)
    requires RepairDocument(w0, w, ids[0], false).Ok? && (Displaces(w0, w, ids[0]) ==> Alone(w0, ids[0]))
    ensures (forall d <- ids[1..] :: d in Due(w0)) && SteadyFor(w0, RepairDocument(w0, w, ids[0], false).value.world, ids[1..])
  {
    var d := ids[0];
    assert d in ids;
    OneDocument(w0, w, d);
    var one := RepairDocument(w0, w, d, false).value.world;
    TailWaits(w0, w, one, ids);
    forall e | e in ids[1..] ensures Steady(w0.folders, one.folders, Owner(w0, e)) {
      assert e in ids && e != d;
      OthersAreSteady(w0, w, d, Owner(w0, e));
      SteadyTransitive(w0.folders, w.folders, one.folders, Owner(w0, e));
    }
  }

  lemma {:induction false} HarmlessRun(w0: World, w: World, ids: seq<DocumentId>)
    requires Going(w0, w, ids) && (forall d <- ids :: d in Due(w0)) && SteadyFor(w0, w, ids) && KeepsHomes(w0, w, ids)
    requires RepairFrom(w0, w, ids, false).Ok?
    ensures var v := RepairFrom(w0, w, ids, false).value.world;
            && AllSettled(v, ids)
            && (forall e <- Due(w0) :: e !in ids && e in Due(w) && Settled(w, e) ==> e in Due(v) && Settled(v, e))
    decreases |ids|
  {
    if ids != [] {
      var d, rest := ids[0], ids[1..];
      assert d in ids;
      var one := RepairDocument(w0, w, d, false).value.world;
      GoingOn(w0, w, ids);
      SteadyGoesOn(w0, w, ids);
      DocumentSettles(w0, w, d);
      HarmlessRun(w0, one, rest);
      var v := RepairFrom(w0, one, rest, false).value.world;
      HeadIsSettled(w0, w, one, ids);
      assert v == RepairFrom(w0, w, ids, false).value.world;
      forall e | e in ids ensures e in Due(v) && Settled(v, e) {
        assert e == d || e in rest;
      }
      forall e | e in Due(w0) && e !in ids && e in Due(w) && Settled(w, e) ensures e in Due(v) && Settled(v, e) {
        SettledStays(w0, w, d, e);
      }
    }
  }

  lemma HeadIsSettled(w0: World, w: World, one: World, ids: seq<DocumentId>)
    requires Unrepeated(ids) && ids != []
    ensures ids[0] !in ids[1..]
  {
    assert forall i :: 0 <= i < |ids[1..]| ==> ids[1..][i] == ids[i + 1];
  }

  // ---------------------------------------------------------------- harmful runs do not

  lemma ViewSaysNo(w0: World, w: World, d: DocumentId, olds: set<FolderId>)
    requires SoundWorld(w0) && Grown(w0.folders, w.folders) && d in Due(w0) && w0.documents[d].folder in w0.folders
    requires w0.folders.Keys <= olds && Displaced(w.folders, olds, Owner(w0, d))
    ensures NeedsRepair(w0.folders, w.folders, w0.documents[d], Owner(w0, d))
  {
    var p, f := Owner(w0, d), w0.documents[d].folder;
    var h := FirstOf(w.folders, ActiveContainers(w.folders, p));
    forall n: nat ensures Up(Seen(w0.folders, w.folders, f), Some(f), n) != Some(h) {
      ViewAvoids(w0.folders, w.folders, f, f, h, n);
    }
  }

  /** Once the container of a project is displaced, its next due document makes the run fail. */
  lemma DisplacedFails(w0: World, w: World, d: DocumentId, olds: set<FolderId>)
    requires SoundWorld(w0) && SoundWorld(w) && Grown(w0.folders, w.folders)
    requires d in Due(w0) && w0.documents[d].folder in w0.folders && w0.projects[Owner(w0, d)].year.Some?
    requires w0.folders.Keys <= olds && Displaced(w.folders, olds, Owner(w0, d))
    ensures RepairDocument(w0, w, d, false).Err?
  {
    var p := Owner(w0, d);
    ViewSaysNo(w0, w, d, olds);
    DisplacedRaises(w.folders, w.nextFolder, olds, p, w0.projects[p], w0.projects[p].year.value,
                    Sources(w0.folders, w.folders, w0.documents[d].folder));
  }

  lemma DisplacedStep(w0: World, w: World, ids: seq<DocumentId>, p: ProjectId, olds: set<FolderId>)
    requires Going(w0, w, ids) && ids != [] && (forall d <- ids :: d in Due(w0)) && p in w0.projects && w0.projects[p].year.Some?
    requires w0.folders.Keys <= olds && Displaced(w.folders, olds, p) && RepairDocument(w0, w, ids[0], false).Ok?
    ensures var one := RepairDocument(w0, w, ids[0], false).value.world;
            && Owner(w0, ids[0]) != p && Displaced(one.folders, olds, p) && Going(w0, one, ids[1..]) && Moves(w, one)
            && (forall e <- w.documents :: e != ids[0] ==> one.documents[e] == w.documents[e])
  {
    var d := ids[0];
    assert d in ids;
    if Owner(w0, d) == p {
      DisplacedFails(w0, w, d, olds);
    }
    OneDocument(w0, w, d);
    GoingOn(w0, w, ids);
    DisplacedStays(w.folders, RepairDocument(w0, w, d, false).value.world.folders, olds, p);
  }

  lemma {:induction false} DisplacedRun(w0: World, w: World, ids: seq<DocumentId>, p: ProjectId, olds: set<FolderId>)
    requires Going(w0, w, ids) && (forall d <- ids :: d in Due(w0)) && p in w0.projects && w0.projects[p].year.Some?
    requires w0.folders.Keys <= olds && Displaced(w.folders, olds, p) && RepairFrom(w0, w, ids, false).Ok?
    ensures var v := RepairFrom(w0, w, ids, false).value.world;
            && (forall d <- ids :: Owner(w0, d) != p) && Displaced(v.folders, olds, p) && Moves(w, v)
            && (forall e <- w.documents :: e !in ids ==> v.documents[e] == w.documents[e])
    decreases |ids|
  {
    if ids == [] {
      MovesSelf(w);
    } else {
      var d, rest := ids[0], ids[1..];
      DisplacedStep(w0, w, ids, p, olds);
      var one := RepairDocument(w0, w, d, false).value.world;
      DisplacedRun(w0, one, rest, p, olds);
      var v := RepairFrom(w0, one, rest, false).value.world;
      MovesTransitive(w, one, v);
      assert v == RepairFrom(w0, w, ids, false).value.world;
      assert forall e :: e in ids <==> e == d || e in rest;
    }
  }

  lemma MovesSelf(w: World)
    requires SoundWorld(w)
    ensures Moves(w, w)
  {
  }

  /** A displaced container leaves another due document of the project behind. */
  lemma DisplacedLeaves(w0: World, w: World, ids: seq<DocumentId>, e: DocumentId)
    requires Going(w0, w, ids) && ids != [] && (forall d <- ids :: d in Due(w0)) && RepairFrom(w0, w, ids, false).Ok?
    requires Displaces(w0, w, ids[0]) && e in Due(w0) && e != ids[0] && Owner(w0, e) == Owner(w0, ids[0])
    ensures var v := RepairFrom(w0, w, ids, false).value.world; e in Due(v) && !Settled(v, e)
  {
    var d := ids[0];
    assert d in ids;
    var p := Owner(w0, d);
    var one := RepairDocument(w0, w, d, false).value.world;
    OneDocument(w0, w, d);
    GoingOn(w0, w, ids);
    DisplacedRun(w0, one, ids[1..], p, w.folders.Keys);
    var v := RepairFrom(w0, one, ids[1..], false).value.world;
    MovesTransitive(w0, w, one);
    MovesTransitive(w0, one, v);
    DueIsKept(w0, v);
    assert e !in ids[1..];
    assert v.documents[e] == w.documents[e] && w.documents[e].folder in w.folders;
  }

  lemma {:induction false} HarmfulRun(w0: World, w: World, ids: seq<DocumentId>) returns (e: DocumentId)
    requires Going(w0, w, ids) && (forall d <- ids :: d in Due(w0)) && !KeepsHomes(w0, w, ids)
    requires RepairFrom(w0, w, ids, false).Ok?
    ensures var v := RepairFrom(w0, w, ids, false).value.world; e in Due(w0) && e in Due(v) && !Settled(v, e)
    decreases |ids|
  {
    var d := ids[0];
    assert d in ids;
    if Displaces(w0, w, d) && !Alone(w0, d) {
      e :| e in Due(w0) && Owner(w0, e) == Owner(w0, d) && e != d;
      DisplacedLeaves(w0, w, ids, e);
    } else {
      GoingOn(w0, w, ids);
      e := HarmfulRun(w0, RepairDocument(w0, w, d, false).value.world, ids[1..]);
    }
  }

  lemma GoingFromStart(w: World)
    requires SoundWorld(w) && DocumentsFit(w)
    ensures var ids := InOrder(Due(w));
            (forall d <- ids :: d in Due(w)) && Going(w, w, ids) && SteadyFor(w, w, ids)
  {
    InOrderLists(Due(w));
    MovesSelf(w);
    forall d | d in InOrder(Due(w)) ensures Steady(w.folders, w.folders, Owner(w, d)) {
      SteadySelf(w.folders, Owner(w, d));
    }
  }

  /** A completed repair leaves every live document of a dated archived project in its project's active
    * container if and only if, along the run, no container is displaced by a copied folder while another
    * document of its project is due. The graph is as sound as before in any case. */
  lemma RepairSettlesIff(w: World)
    requires SoundWorld(w) && DocumentsFit(w) && RepairAll(w, false).Ok?
    ensures forall d <- InOrder(Due(w)) :: d in Due(w)
    ensures var v := RepairAll(w, false).value.world;
            && SoundWorld(v) && Due(v) == Due(w)
            && ((forall d <- Due(v) :: Settled(v, d)) <==> KeepsHomes(w, w, InOrder(Due(w))))
  {
    InOrderLists(Due(w));
    GoingFromStart(w);
    RepairKeepsSound(w, false);
    var v := RepairAll(w, false).value.world;
    DueIsKept(w, v);
    var ids := InOrder(Due(w));
    if KeepsHomes(w, w, ids) {
      HarmlessRun(w, w, ids);
      forall d | d in Due(v) ensures Settled(v, d) {
        assert d in ids;
      }
    } else {
      var e := HarmfulRun(w, w, ids);
    }
  }

  // ---------------------------------------------------------------- a second run

  lemma ViewOfNow(t: Tree, f: FolderId)
    ensures Seen(t, t, f) == t
  {
  }

  /** From rows that it has not touched, a run lists nothing if and only if everything is settled. */
  lemma {:induction false} NothingToRepair(w: World, ids: seq<DocumentId>, dryRun: bool)
    requires forall d <- ids :: d in Due(w)
    ensures RepairFrom(w, w, ids, dryRun) == Ok(Outcome(w, [])) <==> AllSettled(w, ids)
    decreases |ids|
  {
    if ids != [] {
      var d, rest := ids[0], ids[1..];
      assert d in ids;
      ViewOfNow(w.folders, w.documents[d].folder);
      assert forall e :: e in ids <==> e == d || e in rest;
      var one := RepairDocument(w, w, d, dryRun);
      if Settled(w, d) {
        assert one == Ok(Outcome(w, []));
        NothingToRepair(w, rest, dryRun);
        EmptyBefore(RepairFrom(w, w, rest, dryRun));
      } else {
        assert one.Ok? ==> |one.value.fixes| == 1;
      }
    }
  }

  lemma EmptyBefore(r: Result<Outcome, FolderError>)
    ensures r.Ok? ==> [] + r.value.fixes == r.value.fixes
  {
  }

  /** A second run, real or dry, returns no repairs and changes nothing if and only if the first displaced no
    * container while another document of its project was due. */
  lemma SecondRunIsEmptyIff(w: World, dryRun: bool)
    requires SoundWorld(w) && DocumentsFit(w) && RepairAll(w, false).Ok?
    ensures forall d <- InOrder(Due(w)) :: d in Due(w)
    ensures var v := RepairAll(w, false).value.world;
            RepairAll(v, dryRun) == Ok(Outcome(v, [])) <==> KeepsHomes(w, w, InOrder(Due(w)))
  {
    RepairSettlesIff(w);
    var v := RepairAll(w, false).value.world;
    InOrderLists(Due(v));
    NothingToRepair(v, InOrder(Due(v)), dryRun);
  }

  /** A dry run changes nothing and lists, in order of their ids, exactly the documents that are not
    * settled. */
  lemma {:induction false} DryRunLists(w: World, ids: seq<DocumentId>)
    requires forall d <- ids :: d in Due(w)
    ensures RepairFrom(w, w, ids, true).Ok?
    ensures var o := RepairFrom(w, w, ids, true).value;
            && o.world == w
            && (forall d :: (exists fix :: fix in o.fixes && fix.document == d) <==> d in ids && !Settled(w, d))
            && (forall fix <- o.fixes :: fix.document in Due(w) && fix.reported == w.documents[fix.document].folder
                                         && fix.target == None)
    decreases |ids|
  {
    if ids != [] {
      var d, rest := ids[0], ids[1..];
      assert d in ids;
      ViewOfNow(w.folders, w.documents[d].folder);
      DryRunLists(w, rest);
      var o, r := RepairFrom(w, w, ids, true).value, RepairFrom(w, w, rest, true).value;
      var one := RepairDocument(w, w, d, true).value;
      assert o.fixes == one.fixes + r.fixes;
      forall e ensures (exists fix :: fix in o.fixes && fix.document == e) <==> e in ids && !Settled(w, e) {
        assert e in ids <==> e == d || e in rest;
        if exists fix :: fix in r.fixes && fix.document == e {
          var fix :| fix in r.fixes && fix.document == e;
          assert fix in o.fixes;
        }
        if e == d && !Settled(w, d) {
          assert one.fixes[0] in o.fixes;
        }
      }
    }
  }
}

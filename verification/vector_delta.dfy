/** What a publication does to the file of the head it replaces, and what it takes to publish. */
module VectorDelta {
  import opened Options
  import opened Snapshots
  import opened VectorModel
  import opened VectorSafety
  import opened VectorTheorems

  // ----- The base of a publication

  /** A publication remembers the row of the head it read, and builds on the file of that row. */
  ghost predicate BaseOk(s: Store, p: Publication) {
    && (p.base.Some? <==> p.baseRow.Some?)
    && (p.base.Some? ==> p.base.value in s.usedVersions)
    && (p.base.Some? && p.base.value in s.versions ==> s.versions[p.base.value] == p.baseRow.value)
    && (InFlight(p) ==>
         && Acceptable(p.sources, p.rows, p.ready) && Buildable(p.profile, BaseSnapshot(p), p.rows)
         && p.stage.snapshot == Built(p.profile, BaseSnapshot(p), p.rows, p.replace, ValidIndexes(p.sources)))
  }

  /** No version still to be published is the base of a publication. */
  ghost predicate BasesOld(s: Store) {
    forall a, b :: a in s.publications && b in s.publications && InFlight(s.publications[b]) ==>
      s.publications[a].base != Some(s.publications[b].stage.version)
  }

  ghost predicate ProfilesOk(s: Store) {
    forall v :: v in s.versions ==> s.versions[v].digest.profile == s.versions[v].profile
  }

  ghost predicate BasesOk(s: Store) {
    BasesOld(s) && ProfilesOk(s) && forall id :: id in s.publications ==> BaseOk(s, s.publications[id])
  }

  /** Publications go or stay as they are, and no version row appears that one of them is based on. */
  ghost predicate LeavesBases(s: Store, t: Store) {
    && (forall id :: id in t.publications ==> id in s.publications && t.publications[id] == s.publications[id])
    && s.usedVersions <= t.usedVersions
    && (forall v :: v in t.versions && !(v in s.versions && t.versions[v] == s.versions[v]) ==>
         (forall id :: id in t.publications ==> t.publications[id].base != Some(v))
         && t.versions[v].digest.profile == t.versions[v].profile)
  }

  lemma LeftBases(s: Store, t: Store)
    requires BasesOk(s) && LeavesBases(s, t)
    ensures BasesOk(t)
  {
    hide Acceptable, Buildable, Built;
    forall id | id in t.publications ensures BaseOk(t, t.publications[id]) {
      assert BaseOk(s, s.publications[id]);
    }
  }

  /** One publication gets on, the others and all versions stay. */
  ghost predicate OneMoves(s: Store, t: Store, id: PubId, p: Publication) {
    && t.publications == s.publications[id := p] && t.versions == s.versions && s.usedVersions <= t.usedVersions
    && (forall other :: other in s.publications && InFlight(p) ==> s.publications[other].base != Some(p.stage.version))
    && (InFlight(p) ==> p.base != Some(p.stage.version))
    && (forall other :: other in s.publications && InFlight(s.publications[other]) ==>
         p.base != Some(s.publications[other].stage.version))
  }

  lemma OneMoved(s: Store, t: Store, id: PubId, p: Publication)
    requires BasesOk(s) && OneMoves(s, t, id, p) && BaseOk(t, p)
    ensures BasesOk(t)
  {
    hide Acceptable, Buildable, Built;
    forall other | other in t.publications ensures BaseOk(t, t.publications[other]) {
      if other != id {
        assert BaseOk(s, s.publications[other]);
      }
    }
    hide BaseOk;
  }

  lemma BeginBases(s: Store, id: PubId, token: Token, generation: nat, ctx: Context, profile: Profile,
                   rows: seq<VectorRow>, replace: set<IndexId>, ready: set<IndexId>)
    requires Inv(s) && BasesOk(s) && Begin(s, id, token, generation, ctx, profile, rows, replace, ready).Some?
    ensures BasesOk(Begin(s, id, token, generation, ctx, profile, rows, replace, ready).value)
  {
    hide Fenced, BasesOk, ProtectedSafe, DistinctOk, Faithful, Acceptable, Buildable, Built;
    var t := Begin(s, id, token, generation, ctx, profile, rows, replace, ready).value;
    var p := t.publications[id];
    forall other | other in s.publications && InFlight(s.publications[other])
      ensures p.base != Some(s.publications[other].stage.version)
    {
      assert PubOk(s, s.publications[other]);
    }
    hide PubsOk;
    OneMoved(s, t, id, p);
  }

  lemma PrepareBases(s: Store, id: PubId, version: VersionId)
    requires BasesOk(s) && Prepare(s, id, version).Some?
    ensures BasesOk(Prepare(s, id, version).value)
  {
    hide Acceptable, Buildable, Built;
    assert forall other :: other in s.publications ==> BaseOk(s, s.publications[other]);
    var t := Prepare(s, id, version).value;
    OneMoved(s, t, id, t.publications[id]);
  }

  lemma VerifyBases(s: Store, id: PubId, ctx: Context)
    requires BasesOk(s) && Verify(s, id, ctx).Some?
    ensures BasesOk(Verify(s, id, ctx).value)
  {
    hide Acceptable, Buildable, Built, Fenced;
    assert BaseOk(s, s.publications[id]);
    var t := Verify(s, id, ctx).value;
    OneMoved(s, t, id, t.publications[id]);
  }

  lemma WriteFileBases(s: Store, id: PubId)
    requires BasesOk(s) && WriteFile(s, id).Some?
    ensures BasesOk(WriteFile(s, id).value)
  {
    hide Acceptable, Buildable, Built;
    assert BaseOk(s, s.publications[id]);
    var t := WriteFile(s, id).value;
    OneMoved(s, t, id, t.publications[id]);
  }

  lemma CommitBases(s: Store, id: PubId, ctx: Context)
    requires BasesOk(s) && CanCommit(s, id, ctx)
    ensures BasesOk(Commit(s, id, ctx).value)
  {
    hide Fenced, SameSources, Built, Acceptable, Buildable;
    var p := s.publications[id];
    assert BaseOk(s, p);
    BuiltIsDelta(p.profile, BaseSnapshot(p), p.rows, p.replace, ValidIndexes(p.sources));
    hide BaseOk;
    LeftBases(s, Commit(s, id, ctx).value);
  }

  predicate OutsidePublish(e: Event) {
    !e.DoBegin? && !e.DoPrepare? && !e.DoVerify? && !e.DoWriteFile? && !e.DoCommit?
  }

  lemma OtherStepKeepsPublications(s: Store, e: Event)
    requires OutsidePublish(e)
    ensures Step(s, e).publications == s.publications && Step(s, e).usedVersions == s.usedVersions
  {
    hide Fenced, CanPrune, Removable, Orphans, LeaseFree, Current, ContextOk, Choice, Completed, AllHome, LivingLeases,
      PowerfulPins, Holds;
  }

  lemma OtherStepKeepsRows(s: Store, e: Event)
    requires OutsidePublish(e)
    ensures Step(s, e).versions == s.versions || Step(s, e).versions == s.versions - Removable(s)
  {
    hide Fenced, CanPrune, Removable, Orphans, LeaseFree, Current, ContextOk, Choice, Completed, AllHome, LivingLeases,
      PowerfulPins, Holds;
  }

  lemma OtherStepLeavesBases(s: Store, e: Event)
    requires OutsidePublish(e)
    ensures LeavesBases(s, Step(s, e))
  {
    hide Step, Removable;
    OtherStepKeepsPublications(s, e);
    OtherStepKeepsRows(s, e);
  }

  lemma StepKeepsBases(s: Store, e: Event)
    requires Inv(s) && BasesOk(s)
    ensures BasesOk(Step(s, e))
  {
    hide Inv, BasesOk, LeavesBases, Acquire, Renew, ReleaseWriter, Begin, Prepare, Verify, WriteFile, CanCommit, Borrow,
      RenewRead, ReleaseRead, Prune, PruneAborted, SetJob;
    if Step(s, e) != s {
      match e
      case DoBegin(pub, token, generation, ctx, profile, rows, replace, ready) =>
        BeginBases(s, pub, token, generation, ctx, profile, rows, replace, ready);
      case DoPrepare(pub, version) => PrepareBases(s, pub, version);
      case DoVerify(pub, ctx) => VerifyBases(s, pub, ctx);
      case DoWriteFile(pub) => WriteFileBases(s, pub);
      case DoCommit(pub, ctx) => CommitBases(s, pub, ctx);
      case _ =>
        OtherStepLeavesBases(s, e);
        LeftBases(s, Step(s, e));
    }
  }

  lemma {:induction false} RunKeepsBases(s: Store, events: seq<Event>)
    requires Inv(s) && BasesOk(s)
    ensures Inv(Run(s, events)) && BasesOk(Run(s, events))
    decreases |events|
  {
    hide Inv, BasesOk, Step;
    RunKeepsInv(s, events);
    if events != [] {
      RunKeepsBases(s, events[..|events| - 1]);
      StepKeepsBases(Run(s, events[..|events| - 1]), events[|events| - 1]);
    }
  }

  // ----- What a commit publishes

  /** The table in the file of the profile's head; empty before the first publication. */
  ghost function HeadTable(s: Store, k: Profile): Table {
    if k in s.heads && s.heads[k] in s.files then s.files[s.heads[k]].bytes.table else map[]
  }

  /** A commit replaces the head's file by its delta: rows neither supplied, nor replaced, nor of an index that has gone
      are carried over unchanged, and every supplied row is in it as it was supplied. */
  lemma CommitIsDelta(events: seq<Event>, id: PubId, ctx: Context)
    requires CanCommit(Run(EMPTY, events), id, ctx)
    ensures var s := Run(EMPTY, events); var p := s.publications[id]; var t := Commit(s, id, ctx).value;
      && p.profile in t.heads && t.heads[p.profile] in t.files
      && IsDelta(HeadTable(s, p.profile), p.rows, p.replace, ValidIndexes(s.sources), HeadTable(t, p.profile))
  {
    var s := Run(EMPTY, events);
    RunKeepsBases(EMPTY, events);
    CommittedDelta(s, id, ctx);
  }

  lemma BaseIsHead(s: Store, id: PubId, ctx: Context)
    requires Inv(s) && BasesOk(s) && CanCommit(s, id, ctx)
    ensures HeadTable(s, s.publications[id].profile) == TableOf(BaseSnapshot(s.publications[id]))
    ensures ValidIndexes(s.sources) == ValidIndexes(s.publications[id].sources)
  {
    hide Faithful, Built, Buildable, Acceptable, DistinctOk, Fenced;
    var p := s.publications[id];
    assert BaseOk(s, p) && PubOk(s, p);
    assert p.profile in s.heads ==> IsHead(s, s.heads[p.profile]) && Safe(s, s.heads[p.profile]);
  }

  lemma CommittedDelta(s: Store, id: PubId, ctx: Context)
    requires Inv(s) && BasesOk(s) && CanCommit(s, id, ctx)
    ensures var p := s.publications[id]; var t := Commit(s, id, ctx).value;
      && p.profile in t.heads && t.heads[p.profile] in t.files
      && IsDelta(HeadTable(s, p.profile), p.rows, p.replace, ValidIndexes(s.sources), HeadTable(t, p.profile))
  {
    var p := s.publications[id];
    BaseIsHead(s, id, ctx);
    assert BaseOk(s, p);
    BuiltIsDelta(p.profile, BaseSnapshot(p), p.rows, p.replace, ValidIndexes(p.sources));
    hide Inv, BasesOk, Built, Buildable, Acceptable, IsDelta, Commit, HeadTable, ValidIndexes;
  }
}

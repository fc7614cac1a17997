/** What every interleaving of the vector library keeps: protected files, fencing, the chain of heads, readiness. */
module VectorSafety {
  import opened Options
  import opened Snapshots
  import opened VectorModel

  // ----- The invariant

  predicate InFlight(p: Publication) { !p.stage.Claimed? }

  /** The publication has written its file and nobody has replaced its writer. */
  predicate Live(s: Store, p: Publication) { p.stage.Written? && s.lease.Some? && s.lease.value.token == p.token }

  /** The snapshot of a publication answers to the sources it was built from. */
  ghost predicate Faithful(sources: Sources, replace: set<IndexId>, ready: set<IndexId>, table: Table) {
    && (forall c :: c in sources && sources[c].index in ready && !Blank(sources[c].content)
         ==> c in table && table[c].index == sources[c].index && table[c].content == sources[c].content)
    && (forall c :: c in table ==> table[c].index in ValidIndexes(sources))
    && (forall c :: c in table && table[c].index in ready * replace
         ==> c in sources && sources[c].index == table[c].index && sources[c].content == table[c].content)
  }

  /** A publish call holds an issued token that is no pruner's, an unpublished version of its own, a snapshot that
      answers to its sources, and, while its writer has not been replaced, the file it has written. */
  ghost predicate PubOk(s: Store, p: Publication) {
    && p.token.Publisher? && p.token in s.usedTokens && p.generation <= s.generation
    && p.base == Get(p.heads, p.profile)
    && (InFlight(p) ==>
         && p.stage.version in s.usedVersions && p.stage.version !in s.versions
         && (p.stage.Written? || p.stage.version !in s.files)
         && Faithful(p.sources, p.replace, p.ready, p.stage.snapshot.table))
    && (Live(s, p) ==> p.stage.version in s.files && s.files[p.stage.version].bytes == p.stage.snapshot)
  }

  ghost predicate PubsOk(s: Store) {
    s.publications.Keys <= s.usedPubs && forall id :: id in s.publications ==> PubOk(s, s.publications[id])
  }

  ghost predicate DistinctOk(s: Store) {
    forall a, b ::
      a in s.publications && b in s.publications && a != b && InFlight(s.publications[a]) && InFlight(s.publications[b])
      ==> s.publications[a].stage.version != s.publications[b].stage.version
  }

  /** Ids in use were issued, and a version row names its own file. */
  ghost predicate IdsOk(s: Store) {
    && (s.lease.Some? ==> s.lease.value.token in s.usedTokens)
    && s.versions.Keys <= s.usedVersions && s.files.Keys <= s.usedVersions
    && forall v :: v in s.versions ==> s.versions[v].home == v
  }

  ghost predicate HeadsOk(s: Store) {
    forall k :: k in s.heads ==> s.heads[k] in s.versions && s.versions[s.heads[k]].profile == k
  }

  ghost predicate Safe(s: Store, v: VersionId) {
    v in s.versions && v in s.files && s.files[v].bytes == s.versions[v].digest
  }

  /** The safety property: everything a reader may still be given is there, byte for byte. */
  ghost predicate ProtectedSafe(s: Store) { forall v :: Protected(s, v) ==> Safe(s, v) }

  ghost predicate Inv(s: Store) {
    IdsOk(s) && HeadsOk(s) && ProtectedSafe(s) && PubsOk(s) && DistinctOk(s)
  }

  // ----- Preservation, step by step

  /** Leases and pins protect nothing in `t` that they did not protect in `s`. */
  ghost predicate LessProtected(s: Store, t: Store) {
    && (forall l :: l in t.readLeases && t.readLeases[l].expires > t.now
         ==> l in s.readLeases && s.readLeases[l].expires > s.now && s.readLeases[l].version == t.readLeases[l].version)
    && (forall p :: p in t.pins && !Completed(t, p.0) ==> p in s.pins && s.pins[p] == t.pins[p] && !Completed(s, p.0))
  }

  lemma LessIsProtected(s: Store, t: Store, v: VersionId)
    requires LessProtected(s, t) && t.heads == s.heads && t.versions == s.versions && Protected(t, v)
    ensures Protected(s, v)
  {
  }

  lemma SafeStays(s: Store, t: Store)
    requires ProtectedSafe(s) && LessProtected(s, t) && t.heads == s.heads && t.versions == s.versions
    requires forall v :: v in s.files ==> v in t.files && t.files[v] == s.files[v]
    ensures ProtectedSafe(t)
  {
    forall v | Protected(t, v) ensures Safe(t, v) {
      LessIsProtected(s, t, v);
      assert Safe(s, v);
    }
  }

  /** The lease keeps its token, is dropped, or gets a token never seen before. */
  ghost predicate LeaseMoves(s: Store, t: Store) {
    t.lease.Some? ==> (s.lease.Some? && t.lease.value.token == s.lease.value.token)
                      || (t.lease.value.token !in s.usedTokens && t.lease.value.token in t.usedTokens)
  }

  ghost predicate SameFiles(s: Store, t: Store) {
    && t.heads == s.heads && t.versions == s.versions && t.files == s.files && t.usedVersions == s.usedVersions
    && s.usedTokens <= t.usedTokens && s.generation <= t.generation && LeaseMoves(s, t)
  }

  lemma PubStays(s: Store, t: Store, p: Publication)
    requires PubOk(s, p) && SameFiles(s, t)
    ensures PubOk(t, p)
  {
  }

  /** Clocks, jobs, sources, renewals, releases and new writers touch neither files nor pointers. */
  lemma QuietKeepsInv(s: Store, t: Store)
    requires Inv(s) && SameFiles(s, t) && LessProtected(s, t) && t.publications == s.publications
      && t.usedPubs == s.usedPubs
    ensures Inv(t)
  {
    SafeStays(s, t);
    hide PubOk, Protected, Safe, Completed;
    forall id | id in t.publications ensures PubOk(t, t.publications[id]) {
      PubStays(s, t, s.publications[id]);
    }
  }

  lemma AcquireKeepsInv(s: Store, token: Token)
    requires Inv(s) && Acquire(s, token).Some?
    ensures Inv(Acquire(s, token).value)
  {
    hide Inv;
    QuietKeepsInv(s, Acquire(s, token).value);
  }

  lemma RenewKeepsInv(s: Store, token: Token, generation: nat)
    requires Inv(s) && Renew(s, token, generation).Some?
    ensures Inv(Renew(s, token, generation).value)
  {
    hide Inv;
    QuietKeepsInv(s, Renew(s, token, generation).value);
  }

  lemma ReleaseWriterKeepsInv(s: Store, token: Token, generation: nat)
    requires Inv(s)
    ensures Inv(ReleaseWriter(s, token, generation))
  {
    hide Inv;
    QuietKeepsInv(s, s.(lease := None));
  }

  lemma TickKeepsInv(s: Store, dt: nat)
    requires Inv(s)
    ensures Inv(s.(now := s.now + dt))
  {
    hide Inv;
    QuietKeepsInv(s, s.(now := s.now + dt));
  }

  /** A job that was completed stays completed, so its pins stay powerless. */
  lemma SetJobKeepsInv(s: Store, job: JobId, status: JobStatus)
    requires Inv(s) && SetJob(s, job, status).Some?
    ensures Inv(SetJob(s, job, status).value)
  {
    hide Inv;
    var t := SetJob(s, job, status).value;
    assert forall j :: Completed(s, j) ==> Completed(t, j);
    QuietKeepsInv(s, t);
  }

  lemma ReadLeaseKeepsInv(s: Store, lease: LeaseId)
    requires Inv(s)
    ensures Inv(ReleaseRead(s, lease))
    ensures RenewRead(s, lease).Some? ==> Inv(RenewRead(s, lease).value)
  {
    hide Inv;
    QuietKeepsInv(s, ReleaseRead(s, lease));
    if RenewRead(s, lease).Some? {
      QuietKeepsInv(s, RenewRead(s, lease).value);
    }
  }

  lemma SourcesKeepInv(s: Store, sources: Sources, indexes: set<IndexId>, index: IndexId)
    requires Inv(s)
    ensures Inv(s.(sources := sources, indexes := indexes)) && Inv(s.(semantic := s.semantic - {index}))
  {
    hide Inv;
    QuietKeepsInv(s, s.(sources := sources, indexes := indexes));
    QuietKeepsInv(s, s.(semantic := s.semantic - {index}));
  }

  // ----- Publication steps

  /** What a step of publication `id` may change: its own record, its own version id, its own file. */
  ghost predicate OwnChange(s: Store, t: Store, id: PubId, p: Publication) {
    && t.heads == s.heads && t.versions == s.versions
    && t.now == s.now && t.jobs == s.jobs && t.readLeases == s.readLeases && t.pins == s.pins
    && t.generation == s.generation && t.usedTokens == s.usedTokens
    && (t.lease.Some? ==> s.lease.Some? && t.lease.value.token == s.lease.value.token)
    && t.publications == s.publications[id := p] && t.usedPubs == s.usedPubs + {id}
    && s.usedVersions <= t.usedVersions && t.files.Keys <= t.usedVersions
    && (forall v :: v in s.files ==> v in t.files && t.files[v] == s.files[v])
    && (forall v :: v in t.files && v !in s.files ==> InFlight(p) && v == p.stage.version)
    && (InFlight(p) ==> (
          || p.stage.version !in s.usedVersions
          || (id in s.publications && InFlight(s.publications[id])
            && s.publications[id].stage.version == p.stage.version)))
  }

  lemma OthersStay(s: Store, t: Store, id: PubId, p: Publication, other: PubId)
    requires Inv(s) && OwnChange(s, t, id, p) && other in s.publications && other != id
    ensures PubOk(t, s.publications[other])
    ensures InFlight(p) && InFlight(s.publications[other]) ==> p.stage.version != s.publications[other].stage.version
  {
    hide Faithful, Protected, Safe, HeadsOk, ProtectedSafe;
    assert PubOk(s, s.publications[other]);
  }

  lemma OwnChangeKeepsPubs(s: Store, t: Store, id: PubId, p: Publication)
    requires Inv(s) && OwnChange(s, t, id, p) && PubOk(t, p)
    ensures PubsOk(t) && DistinctOk(t)
  {
    hide PubOk, Inv;
    forall other | other in t.publications && other != id
      ensures PubOk(t, t.publications[other])
      ensures InFlight(p) && InFlight(t.publications[other]) ==> p.stage.version != t.publications[other].stage.version
    {
      OthersStay(s, t, id, p, other);
    }
    InvPubs(s);
  }

  lemma InvPubs(s: Store)
    requires Inv(s)
    ensures PubsOk(s) && DistinctOk(s)
  {
  }

  lemma OwnChangeKeepsInv(s: Store, t: Store, id: PubId, p: Publication)
    requires Inv(s) && OwnChange(s, t, id, p) && PubOk(t, p)
    ensures Inv(t)
  {
    hide PubOk, PubsOk, DistinctOk, Protected, Safe, Completed;
    OwnChangeKeepsPubs(s, t, id, p);
    OwnChangeProtects(s, t, id, p);
    SafeStays(s, t);
  }

  lemma OwnChangeProtects(s: Store, t: Store, id: PubId, p: Publication)
    requires OwnChange(s, t, id, p)
    ensures LessProtected(s, t)
  {
  }

  lemma BeginKeepsInv(s: Store, id: PubId, token: Token, generation: nat, ctx: Context, profile: Profile,
                      rows: seq<VectorRow>, replace: set<IndexId>, ready: set<IndexId>)
    requires Inv(s) && Begin(s, id, token, generation, ctx, profile, rows, replace, ready).Some?
    ensures Inv(Begin(s, id, token, generation, ctx, profile, rows, replace, ready).value)
  {
    hide Faithful, Completed, PubsOk, DistinctOk, HeadsOk, ProtectedSafe;
    var t := Begin(s, id, token, generation, ctx, profile, rows, replace, ready).value;
    OwnChangeKeepsInv(s, t, id, t.publications[id]);
  }

  /** The snapshot a publication builds holds the current content of every non-blank chunk it declares ready. */
  lemma BuiltIsFaithful(p: Publication)
    requires Acceptable(p.sources, p.rows, p.ready) && Buildable(p.profile, BaseSnapshot(p), p.rows)
    ensures Faithful(p.sources, p.replace, p.ready,
      Built(p.profile, BaseSnapshot(p), p.rows, p.replace, ValidIndexes(p.sources)).table)
  {
    var base := if BaseSnapshot(p).Some? then BaseSnapshot(p).value.table else map[];
    var kept := Kept(base, p.replace, ValidIndexes(p.sources));
    var table := Upserted(kept, p.rows);
    forall c: ChunkId
      ensures Supplied(p.rows, c) ==>
        c in table && c in p.sources && table[c].index == p.sources[c].index && table[c].content == p.sources[c].content
      ensures !Supplied(p.rows, c) ==> (c in table <==> c in kept) && (c in kept ==> table[c] == kept[c])
    {
      UpsertedIsDelta(kept, p.rows, c);
      if Supplied(p.rows, c) {
        var k := LastExists(p.rows, c);
        assert Authorized(p.sources, p.rows[k]);
      }
    }
    forall c | c in p.sources && p.sources[c].index in p.ready && !Blank(p.sources[c].content)
      ensures Supplied(p.rows, c)
    {
      assert c in RequiredChunks(p.sources, p.sources[c].index);
      assert c in SuppliedChunks(p.rows, p.sources[c].index);
    }
  }

  lemma PrepareKeepsInv(s: Store, id: PubId, version: VersionId)
    requires Inv(s) && Prepare(s, id, version).Some?
    ensures Inv(Prepare(s, id, version).value)
  {
    BuiltIsFaithful(s.publications[id]);
    hide Faithful, Built, Acceptable, Buildable, Completed, DistinctOk, HeadsOk, ProtectedSafe;
    assert PubOk(s, s.publications[id]);
    var t := Prepare(s, id, version).value;
    OwnChangeKeepsInv(s, t, id, t.publications[id]);
  }

  lemma VerifyKeepsInv(s: Store, id: PubId, ctx: Context)
    requires Inv(s) && Verify(s, id, ctx).Some?
    ensures Inv(Verify(s, id, ctx).value)
  {
    hide Faithful, Completed, DistinctOk, HeadsOk, ProtectedSafe;
    assert PubOk(s, s.publications[id]);
    var t := Verify(s, id, ctx).value;
    OwnChangeKeepsInv(s, t, id, t.publications[id]);
  }

  lemma WriteFileKeepsInv(s: Store, id: PubId)
    requires Inv(s) && WriteFile(s, id).Some?
    ensures Inv(WriteFile(s, id).value)
  {
    hide Faithful, Completed, DistinctOk, HeadsOk, ProtectedSafe;
    assert PubOk(s, s.publications[id]);
    var t := WriteFile(s, id).value;
    OwnChangeKeepsInv(s, t, id, t.publications[id]);
  }

  lemma PubIsOk(s: Store, id: PubId)
    requires Inv(s) && id in s.publications
    ensures PubOk(s, s.publications[id])
  {
  }

  /** After a commit only the new version is newly protected; its parent is the head it replaced. */
  lemma CommitProtects(s: Store, id: PubId, ctx: Context, u: VersionId)
    requires Inv(s) && CanCommit(s, id, ctx) && Protected(Commit(s, id, ctx).value, u)
    ensures u == s.publications[id].stage.version || Protected(s, u)
  {
  }

  lemma PubSurvivesCommit(s: Store, id: PubId, ctx: Context, other: PubId)
    requires Inv(s) && CanCommit(s, id, ctx) && other in s.publications && other != id
    ensures PubOk(Commit(s, id, ctx).value, s.publications[other])
  {
  }

  lemma CommitKeepsInv(s: Store, id: PubId, ctx: Context)
    requires Inv(s) && CanCommit(s, id, ctx)
    ensures Inv(Commit(s, id, ctx).value)
  {
    hide Faithful, Completed, Protected, PubsOk, ProtectedSafe;
    PubIsOk(s, id);
    CommitKeepsFiles(s, id, ctx);
    CommitKeepsPubs(s, id, ctx);
  }

  lemma CommitKeepsFiles(s: Store, id: PubId, ctx: Context)
    requires Inv(s) && CanCommit(s, id, ctx)
    ensures ProtectedSafe(Commit(s, id, ctx).value)
  {
    hide Faithful, Completed, Protected, PubsOk, DistinctOk, HeadsOk, IdsOk;
    var t := Commit(s, id, ctx).value;
    PubIsOk(s, id);
    forall u | Protected(t, u) ensures Safe(t, u) {
      CommitProtects(s, id, ctx, u);
      assert u != s.publications[id].stage.version ==> Safe(s, u);
    }
  }

  lemma CommitKeepsPubs(s: Store, id: PubId, ctx: Context)
    requires Inv(s) && CanCommit(s, id, ctx)
    ensures PubsOk(Commit(s, id, ctx).value)
  {
    hide PubOk, ProtectedSafe, HeadsOk, Completed, IdsOk;
    var t := Commit(s, id, ctx).value;
    forall other | other in t.publications ensures PubOk(t, t.publications[other]) {
      PubSurvivesCommit(s, id, ctx, other);
    }
  }

  /** What borrow hands out was protected before the new lease was written. */
  lemma ChoiceIsProtected(s: Store, profile: Profile, ctx: Context)
    requires ContextOk(s, ctx) && Choice(s, profile, ctx).Some?
    ensures Protected(s, Choice(s, profile, ctx).value)
  {
  }

  lemma BorrowProtects(s: Store, lease: LeaseId, profile: Profile, ctx: Context, u: VersionId)
    requires Borrow(s, lease, profile, ctx).Some? && Protected(Borrow(s, lease, profile, ctx).value, u)
    ensures Protected(s, u)
  {
  }

  lemma BorrowKeepsInv(s: Store, lease: LeaseId, profile: Profile, ctx: Context)
    requires Inv(s) && Borrow(s, lease, profile, ctx).Some?
    ensures Inv(Borrow(s, lease, profile, ctx).value)
  {
    hide Faithful, Completed, Protected, PubOk;
    var t := Borrow(s, lease, profile, ctx).value;
    forall u | Protected(t, u) ensures Safe(t, u) {
      BorrowProtects(s, lease, profile, ctx, u);
      assert Safe(s, u);
    }
    forall id | id in t.publications ensures PubOk(t, t.publications[id]) {
      PubStays(s, t, s.publications[id]);
    }
  }

  // ----- Pruning

  /** While a pruner holds the lease no publication is live, and nothing protected is doomed. */
  lemma DoomedIsUnprotected(s: Store, v: VersionId)
    requires Inv(s) && v in Removable(s) + Orphans(s)
    ensures !Protected(s, v)
  {
  }

  lemma PubSurvivesPrune(s: Store, t: Store, p: Publication)
    requires PubOk(s, p) && s.lease.Some? && s.lease.value.token.Pruner?
    requires t.lease.Some? && t.lease.value.token == s.lease.value.token && t.usedTokens == s.usedTokens
      && t.generation == s.generation
    requires t.usedVersions == s.usedVersions && t.versions.Keys <= s.versions.Keys && t.files.Keys <= s.files.Keys
    ensures PubOk(t, p)
  {
  }

  lemma PruneAbortedKeepsInv(s: Store, token: Token, generation: nat, ctx: Context, unlinked: set<VersionId>)
    requires Inv(s) && PruneAborted(s, token, generation, ctx, unlinked).Some?
    ensures Inv(PruneAborted(s, token, generation, ctx, unlinked).value)
  {
    hide PubOk, Completed, IsHead, IsHeadParent, Removable, Orphans;
    var t := PruneAborted(s, token, generation, ctx, unlinked).value;
    assert LessProtected(s, t) by { assert forall j :: Completed(t, j) == Completed(s, j) by { LessCompleted(s, t); } }
    forall v | Protected(t, v) ensures Safe(t, v) {
      LessIsProtected(s, t, v);
      assert Safe(s, v);
      if v in unlinked { DoomedIsUnprotected(s, v); }
    }
    forall id | id in t.publications ensures PubOk(t, t.publications[id]) {
      PubSurvivesPrune(s, t, s.publications[id]);
    }
  }

  lemma LessCompleted(s: Store, t: Store)
    requires t.now == s.now && t.jobs == s.jobs
    ensures forall j :: Completed(t, j) == Completed(s, j)
  {
  }

  lemma PrunedProtects(s: Store, token: Token, v: VersionId)
    requires Protected(Pruned(s, token), v)
    ensures Protected(s, v)
  {
  }

  lemma PruneKeepsInv(s: Store, token: Token, generation: nat, ctx: Context)
    requires Inv(s) && Prune(s, token, generation, ctx).Some?
    ensures Inv(Prune(s, token, generation, ctx).value)
  {
    hide PubOk, Completed, Protected, Removable, Orphans;
    var t := Pruned(s, token);
    forall v | Protected(t, v) ensures Safe(t, v) {
      PrunedProtects(s, token, v);
      assert Safe(s, v);
      if v in Removable(s) + Orphans(s) { DoomedIsUnprotected(s, v); }
    }
    forall k | k in t.heads ensures t.heads[k] in t.versions {
      HeadIsKept(s, k);
    }
    forall id | id in t.publications ensures PubOk(t, t.publications[id]) {
      PubSurvivesPrune(s, t, s.publications[id]);
    }
  }

  lemma HeadIsKept(s: Store, k: Profile)
    requires Inv(s) && k in s.heads
    ensures s.heads[k] in s.versions && s.heads[k] !in Removable(s)
  {
  }
}

/** The promises of the vector library over whole runs. */
module VectorTheorems {
  import opened Options
  import opened Snapshots
  import opened VectorModel
  import opened VectorSafety

  // ----- Protected files

  lemma StepKeepsInv(s: Store, e: Event)
    requires Inv(s)
    ensures Inv(Step(s, e))
  {
    hide Inv, Acquire, Renew, ReleaseWriter, Begin, Prepare, Verify, WriteFile, CanCommit, Borrow, RenewRead,
      ReleaseRead, Prune, PruneAborted, SetJob;
    if Attempt(s, e).Some? {
      match e
      case Tick(dt) => TickKeepsInv(s, dt);
      case DoAcquire(token) => AcquireKeepsInv(s, token);
      case DoRenew(token, generation) => RenewKeepsInv(s, token, generation);
      case DoReleaseWriter(token, generation) => ReleaseWriterKeepsInv(s, token, generation);
      case DoBegin(pub, token, generation, ctx, profile, rows, replace, ready) =>
        BeginKeepsInv(s, pub, token, generation, ctx, profile, rows, replace, ready);
      case DoPrepare(pub, version) => PrepareKeepsInv(s, pub, version);
      case DoVerify(pub, ctx) => VerifyKeepsInv(s, pub, ctx);
      case DoWriteFile(pub) => WriteFileKeepsInv(s, pub);
      case DoCommit(pub, ctx) => CommitKeepsInv(s, pub, ctx);
      case DoBorrow(lease, profile, ctx) => BorrowKeepsInv(s, lease, profile, ctx);
      case DoRenewRead(lease) => ReadLeaseKeepsInv(s, lease);
      case DoReleaseRead(lease) => ReadLeaseKeepsInv(s, lease);
      case DoPrune(token, generation, ctx) => PruneKeepsInv(s, token, generation, ctx);
      case DoPruneAborted(token, generation, ctx, unlinked) =>
        PruneAbortedKeepsInv(s, token, generation, ctx, unlinked);
      case DoSetJob(job, status) => SetJobKeepsInv(s, job, status);
      case DoSetSources(sources, indexes) => SourcesKeepInv(s, sources, indexes, "");
      case DoForget(index) => SourcesKeepInv(s, s.sources, s.indexes, index);
    }
  }

  lemma {:induction false} RunKeepsInv(s: Store, events: seq<Event>)
    requires Inv(s)
    ensures Inv(Run(s, events))
    decreases |events|
  {
    hide Inv, Step;
    if events != [] {
      RunKeepsInv(s, events[..|events| - 1]);
      StepKeepsInv(Run(s, events[..|events| - 1]), events[|events| - 1]);
    }
  }

  /** In every reachable state the file of every protected version is there with its recorded bytes. */
  lemma ReachableIsSafe(events: seq<Event>, v: VersionId)
    requires Protected(Run(EMPTY, events), v)
    ensures Safe(Run(EMPTY, events), v)
  {
    assert Inv(EMPTY);
    RunKeepsInv(EMPTY, events);
  }

  /** Pruning, finished or broken off, never takes a protected file, and takes every unprotected version of age. */
  lemma PruneIsExact(s: Store, token: Token, generation: nat, ctx: Context, unlinked: set<VersionId>, v: VersionId)
    requires Inv(s)
    ensures PruneAborted(s, token, generation, ctx, unlinked).Some? && Protected(s, v)
      ==> v in PruneAborted(s, token, generation, ctx, unlinked).value.files
    ensures CanPrune(s, token, generation, ctx) ==> Prune(s, token, generation, ctx).Some?
    ensures CanPrune(s, token, generation, ctx) && v in s.versions ==>
      (v in Prune(s, token, generation, ctx).value.versions <==> Protected(s, v) || s.versions[v].created > s.now - DAY)
    ensures CanPrune(s, token, generation, ctx) && v in s.files && v !in s.versions ==>
      (v in Prune(s, token, generation, ctx).value.files <==> s.files[v].modified >= s.now - DAY)
    ensures CanPrune(s, token, generation, ctx) && v in s.files && v in s.versions ==>
      (v in Prune(s, token, generation, ctx).value.files <==> Protected(s, v) || s.versions[v].created > s.now - DAY)
  {
  }

  /** A reader who has a head or a pin to read is never turned away, and what it is given can be opened. */
  lemma BorrowFindsItsFile(s: Store, lease: LeaseId, profile: Profile, ctx: Context)
    requires Inv(s)
    ensures Borrow(s, lease, profile, ctx).Some? <==>
      lease !in s.usedLeases && ContextOk(s, ctx) && Choice(s, profile, ctx).Some?
    ensures Borrow(s, lease, profile, ctx).Some? ==>
      var t := Borrow(s, lease, profile, ctx).value;
      Safe(t, t.readLeases[lease].version) && IsLeased(t, t.readLeases[lease].version)
  {
    hide PubsOk, DistinctOk, HeadsOk, Protected;
    if ContextOk(s, ctx) && Choice(s, profile, ctx).Some? {
      ChoiceIsProtected(s, profile, ctx);
      assert Safe(s, Choice(s, profile, ctx).value);
    }
  }

  // ----- Immutable snapshots

  /** Nobody is going to write the file of `v` any more. */
  ghost predicate WrittenOff(s: Store, v: VersionId) {
    && v in s.usedVersions
    && forall id :: id in s.publications && InFlight(s.publications[id]) && s.publications[id].stage.version == v
         ==> s.publications[id].stage.Written?
  }

  lemma StepKeepsWrittenOff(s: Store, e: Event, v: VersionId)
    requires WrittenOff(s, v)
    ensures WrittenOff(Step(s, e), v)
  {
    hide Fenced, CanPrepare, Removable, Orphans, LeaseFree, Current, ContextOk, Choice, Completed, Acceptable, Built;
  }

  lemma StepKeepsBytes(s: Store, e: Event, v: VersionId)
    requires WrittenOff(s, v)
    ensures v in Step(s, e).files ==> v in s.files && Step(s, e).files[v] == s.files[v]
  {
    hide Fenced, CanPrepare, Removable, Orphans, LeaseFree, Current, ContextOk, Choice, Completed, Acceptable, Built;
  }

  lemma {:induction false} RunKeepsBytes(s: Store, events: seq<Event>, v: VersionId)
    requires WrittenOff(s, v)
    ensures WrittenOff(Run(s, events), v)
    ensures v in Run(s, events).files ==> v in s.files && Run(s, events).files[v] == s.files[v]
    decreases |events|
  {
    hide WrittenOff, Step;
    if events != [] {
      RunKeepsBytes(s, events[..|events| - 1], v);
      StepKeepsWrittenOff(Run(s, events[..|events| - 1]), events[|events| - 1], v);
      StepKeepsBytes(Run(s, events[..|events| - 1]), events[|events| - 1], v);
    }
  }

  lemma FileIsWrittenOff(s: Store, v: VersionId)
    requires Inv(s) && v in s.files
    ensures WrittenOff(s, v)
  {
    hide ProtectedSafe, HeadsOk, DistinctOk, Faithful;
    forall id | id in s.publications && InFlight(s.publications[id]) && s.publications[id].stage.version == v
      ensures s.publications[id].stage.Written?
    {
      assert PubOk(s, s.publications[id]);
    }
  }

  lemma {:induction false} RunTwice(s: Store, a: seq<Event>, b: seq<Event>)
    ensures Run(s, a + b) == Run(Run(s, a), b)
    decreases |b|
  {
    if b == [] {
      assert a + b == a;
    } else {
      RunTwice(s, a, b[..|b| - 1]);
      assert (a + b)[..|a + b| - 1] == a + b[..|b| - 1];
    }
  }

  /** A committed file is never overwritten, and a deleted one never comes back. */
  lemma SnapshotsAreImmutable(s: Store, events: seq<Event>, later: seq<Event>, v: VersionId)
    requires Inv(s) && v in s.files
    ensures v in Run(s, events).files ==> Run(s, events).files[v] == s.files[v]
    ensures v !in Run(s, events).files ==> v !in Run(s, events + later).files
  {
    hide Inv, WrittenOff, Run;
    FileIsWrittenOff(s, v);
    RunKeepsBytes(s, events, v);
    RunKeepsBytes(Run(s, events), later, v);
    RunTwice(s, events, later);
  }

  // ----- Fencing

  /** A pointer moves only in the commit of a publisher that holds the current generation under an unexpired lease;
      it moves one profile to a version never published before, whose parent is the head it replaces. */
  lemma HeadMovesOnlyByItsWriter(s: Store, e: Event)
    requires Inv(s)
    ensures Step(s, e).heads != s.heads ==> e.DoCommit? && CanCommit(s, e.pub, e.ctx)
    ensures Step(s, e).heads != s.heads && e.ctx.InJob? ==>
      e.ctx.leaseHeld && e.ctx.id in s.jobs && s.jobs[e.ctx.id].status == Running
    ensures Step(s, e).heads != s.heads ==> var p := s.publications[e.pub];
      && p.generation == s.generation && s.lease == Some(WriterLease(p.token, s.lease.value.expires))
        && s.lease.value.expires > s.now
      && p.stage.version !in s.versions
      && Step(s, e).heads == s.heads[p.profile := p.stage.version]
      && Step(s, e).versions == s.versions[p.stage.version :=
        Version(p.profile, Get(s.heads, p.profile), s.now, p.stage.version, p.stage.snapshot)]
  {
    HeadsMoveByCommit(s, e);
    if Step(s, e).heads != s.heads {
      PubIsOk(s, e.pub);
    }
  }

  lemma HeadsMoveByCommit(s: Store, e: Event)
    ensures Step(s, e).heads != s.heads ==> e.DoCommit? && CanCommit(s, e.pub, e.ctx)
  {
  }

  /** A publication taken over by a later generation. */
  ghost predicate Superseded(s: Store, id: PubId) {
    id in s.publications && s.publications[id].generation < s.generation
  }

  lemma SupersededStays(s: Store, e: Event, id: PubId)
    requires Superseded(s, id) && id in s.usedPubs
    ensures Superseded(Step(s, e), id) && id in Step(s, e).usedPubs
  {
    hide CanPrepare, Removable, Orphans, LeaseFree, ContextOk, Choice, Completed, Acceptable, Built, SameSources;
  }

  lemma {:induction false} SupersededForever(s: Store, events: seq<Event>, id: PubId)
    requires Superseded(s, id) && id in s.usedPubs
    ensures Superseded(Run(s, events), id) && id in Run(s, events).usedPubs
    decreases |events|
  {
    hide Superseded, Step;
    if events != [] {
      SupersededForever(s, events[..|events| - 1], id);
      SupersededStays(Run(s, events[..|events| - 1]), events[|events| - 1], id);
    }
  }

  /** Once another writer has taken the lease, a publication can never move a head, whatever files it wrote. */
  lemma SupersededNeverCommits(s: Store, events: seq<Event>, id: PubId, ctx: Context)
    requires Inv(s) && Superseded(s, id)
    ensures !CanCommit(Run(s, events), id, ctx)
    ensures Step(Run(s, events), DoCommit(id, ctx)) == Run(s, events)
  {
    assert id in s.usedPubs;
    SupersededForever(s, events, id);
  }

  /** Taking the lease supersedes every publication in flight. */
  lemma AcquireSupersedes(s: Store, token: Token, id: PubId)
    requires Inv(s) && Acquire(s, token).Some? && id in s.publications
    ensures Superseded(Acquire(s, token).value, id)
  {
  }

  // ----- The chain of heads

  /** One publication of a profile: the parent its row names, and its version. */
  datatype Link = Link(parent: Option<VersionId>, version: VersionId)

  ghost predicate Publishes(before: Store, after: Store, k: Profile) {
    k in after.heads && Get(before.heads, k) != Get(after.heads, k)
  }

  /** The publications of profile `k` during a run, with parents as stored in the version rows. */
  ghost function Published(s: Store, events: seq<Event>, k: Profile): seq<Link>
    decreases |events|
  {
    if events == [] then []
    else
      var front := events[..|events| - 1];
      var before, after := Run(s, front), Run(s, events);
      Published(s, front, k) +
        if Publishes(before, after, k) then
          var v := after.heads[k];
          [Link(if v in after.versions then after.versions[v].parent else None, v)]
        else []
  }

  ghost predicate Chained(start: Option<VersionId>, links: seq<Link>) {
    && (links != [] ==> links[0].parent == start)
    && forall i, j :: 0 <= i && j == i + 1 && j < |links| ==> links[j].parent == Some(links[i].version)
  }

  ghost function End(start: Option<VersionId>, links: seq<Link>): Option<VersionId> {
    if links == [] then start else Some(links[|links| - 1].version)
  }

  /** A version that was published and can never be published again. */
  ghost predicate Retired(s: Store, v: VersionId) {
    && v in s.usedVersions
    && forall id :: id in s.publications && InFlight(s.publications[id]) ==> s.publications[id].stage.version != v
  }

  lemma StepKeepsRetired(s: Store, e: Event, v: VersionId)
    requires Retired(s, v)
    ensures Retired(Step(s, e), v)
  {
    hide Fenced, CanPrepare, Removable, Orphans, LeaseFree, Current, ContextOk, Choice, Completed, Acceptable, Built,
      SameSources;
  }

  lemma CommitRetires(s: Store, e: Event)
    requires Inv(s) && e.DoCommit? && CanCommit(s, e.pub, e.ctx)
    ensures InFlight(s.publications[e.pub])
    ensures var v := s.publications[e.pub].stage.version; Retired(Step(s, e), v) && !Retired(s, v)
  {
    PubIsOk(s, e.pub);
    hide PubOk, ProtectedSafe, HeadsOk, IdsOk, PubsOk, Fenced, SameSources;
  }

  /** What a run has done to profile `k`: a chain from the old head to the present one, all of it retired. */
  ghost predicate ChainedTo(start: Option<VersionId>, links: seq<Link>, s: Store, k: Profile) {
    && Chained(start, links)
    && Get(s.heads, k) == End(start, links)
    && (forall i :: 0 <= i < |links| ==> Retired(s, links[i].version))
    && forall i, j :: 0 <= i < j < |links| ==> links[i].version != links[j].version
  }

  lemma ChainGrows(start: Option<VersionId>, links: seq<Link>, s: Store, e: Event, k: Profile)
    requires Inv(s) && ChainedTo(start, links, s, k)
    ensures var t := Step(s, e);
      if Publishes(s, t, k)
      then t.heads[k] in t.versions && ChainedTo(start, links + [Link(t.versions[t.heads[k]].parent, t.heads[k])], t, k)
      else ChainedTo(start, links, t, k)
  {
    hide Inv, Retired, Step;
    forall i | 0 <= i < |links| ensures Retired(Step(s, e), links[i].version) {
      StepKeepsRetired(s, e, links[i].version);
    }
    if Step(s, e).heads != s.heads {
      HeadMovesOnlyByItsWriter(s, e);
      CommitRetires(s, e);
    }
  }

  /** No publication is lost: the heads of a profile form one chain in which every version names the head it
      replaced, ending at the present head, and no version appears twice. */
  lemma {:induction false} HeadsFormAChain(s: Store, events: seq<Event>, k: Profile)
    requires Inv(s)
    ensures ChainedTo(Get(s.heads, k), Published(s, events, k), Run(s, events), k)
    decreases |events|
  {
    if events != [] {
      var front := events[..|events| - 1];
      HeadsFormAChain(s, front, k);
      RunKeepsInv(s, front);
      hide Inv, ChainedTo, Step;
      ChainGrows(Get(s.heads, k), Published(s, front, k), Run(s, front), events[|events| - 1], k);
      assert Published(s, front, k) + [] == Published(s, front, k);
    }
  }

  // ----- Readiness

  lemma FaithfulToSame(a: Sources, b: Sources, replace: set<IndexId>, ready: set<IndexId>, table: Table)
    requires Faithful(a, replace, ready, table) && SameSources(b, a)
    ensures Faithful(b, replace, ready, table)
  {
  }

  /** When publish marks indexes ready, the published file holds a row with the current content of each of their
      non-blank chunks, no row of an index outside the current sources, and no stale row of a replaced index. */
  lemma ReadyMeansComplete(s: Store, id: PubId, ctx: Context)
    requires Inv(s) && CanCommit(s, id, ctx)
    ensures var p := s.publications[id]; var t := Commit(s, id, ctx).value; var v := t.heads[p.profile];
      && (forall ix :: ix in p.ready ==> ix in t.semantic && t.semantic[ix] == p.profile)
      && Safe(t, v) && Faithful(t.sources, p.replace, p.ready, t.files[v].bytes.table)
  {
    var p := s.publications[id];
    PubIsOk(s, id);
    FaithfulToSame(p.sources, s.sources, p.replace, p.ready, p.stage.snapshot.table);
    hide Faithful, SameSources;
  }
}

/** The promises of the vector library in the terms a reader of its tables would use. */
module VectorEffects {
  import opened Options
  import opened Snapshots
  import opened VectorModel
  import opened VectorSafety
  import opened VectorTheorems
  import opened VectorDelta

  // ----- What readers can count on

  /** The version's row and file are there, and the file holds the bytes the row records. */
  ghost predicate Readable(s: Store, v: VersionId) {
    v in s.versions && v in s.files && s.files[v].bytes == s.versions[v].digest
  }

  /** The job may still need its pins: it has not succeeded or been cancelled, and has not failed a week ago. */
  predicate NeedsPins(s: Store, job: JobId) {
    job in s.jobs ==>
      && s.jobs[job].status != Succeeded && s.jobs[job].status != Cancelled
      && (s.jobs[job].status == Failed ==> s.jobs[job].updated >= s.now - 604800)
  }

  /** Whatever has happened: heads, the heads before them, unexpired read leases and pins of unfinished jobs can be
      read. */
  lemma ReadersAreSafe(events: seq<Event>)
    ensures var s := Run(EMPTY, events);
      && (forall k :: k in s.heads ==> Readable(s, s.heads[k]))
      && (forall k :: k in s.heads && s.versions[s.heads[k]].parent.Some? ==>
        Readable(s, s.versions[s.heads[k]].parent.value))
      && (forall l :: l in s.readLeases && s.readLeases[l].expires > s.now ==> Readable(s, s.readLeases[l].version))
      && (forall pin :: pin in s.pins && NeedsPins(s, pin.0) ==> Readable(s, s.pins[pin]))
  {
    var s := Run(EMPTY, events);
    forall v | Protected(s, v) ensures Readable(s, v) {
      ReachableIsSafe(events, v);
    }
    hide Run;
    forall k | k in s.heads ensures Readable(s, s.heads[k]) {
      assert IsHead(s, s.heads[k]);
    }
    forall k | k in s.heads && s.versions[s.heads[k]].parent.Some?
      ensures Readable(s, s.versions[s.heads[k]].parent.value)
    {
      assert Readable(s, s.heads[k]);
      assert IsHeadParent(s, s.versions[s.heads[k]].parent.value);
    }
    forall l | l in s.readLeases && s.readLeases[l].expires > s.now ensures Readable(s, s.readLeases[l].version) {
      assert IsLeased(s, s.readLeases[l].version);
    }
    forall pin | pin in s.pins && NeedsPins(s, pin.0) ensures Readable(s, s.pins[pin]) {
      assert IsPinned(s, s.pins[pin]);
    }
  }

  // ----- Leases

  /** A free lease is taken for five minutes under the next generation; any other one is left alone. */
  lemma AcquireIsExact(s: Store, token: Token)
    requires token !in s.usedTokens
    ensures Acquire(s, token).Some? <==> (s.lease.Some? ==> s.lease.value.expires < s.now)
    ensures Acquire(s, token).Some? ==> var t := Acquire(s, token).value;
      t.lease == Some(WriterLease(token, s.now + 300)) && t.generation == s.generation + 1
  {
  }

  ghost predicate HeldFor(s: Store, token: Token) { s.lease == Some(WriterLease(token, s.now + 300)) }

  /** Every session of a publisher that passes the fence has its lease run for five minutes from then on. */
  lemma FenceExtends(s: Store, e: Event)
    requires Attempt(s, e).Some?
    ensures e.DoBegin? ==> HeldFor(Step(s, e), e.token)
    ensures e.DoVerify? || e.DoCommit? ==> e.pub in s.publications && HeldFor(Step(s, e), s.publications[e.pub].token)
  {
    hide Acceptable, Buildable, SameSources, Built, MarkedReady, ContextOk, Acquire, Renew, ReleaseWriter, Prepare,
      WriteFile,
      Borrow, RenewRead, ReleaseRead, Prune, PruneAborted, SetJob;
  }

  /** So do a renewal, and a prune that ends. */
  lemma RenewalExtends(s: Store, token: Token, generation: nat, ctx: Context)
    ensures Renew(s, token, generation).Some? <==>
      s.lease.Some? && s.lease.value.token == token && s.generation == generation && s.lease.value.expires > s.now
    ensures Renew(s, token, generation).Some? ==> HeldFor(Renew(s, token, generation).value, token)
    ensures Prune(s, token, generation, ctx).Some? ==> HeldFor(Prune(s, token, generation, ctx).value, token)
  {
    hide Removable, Orphans, AllHome;
  }

  /** A writer gives up its own lease, and nobody else's. */
  lemma ReleaseIsExact(s: Store, token: Token, generation: nat)
    ensures var own := s.lease.Some? && s.lease.value.token == token && s.generation == generation;
      ReleaseWriter(s, token, generation) == if own then s.(lease := None) else s
  {
  }

  /** A read lease runs for ten minutes from when it is written or renewed, and is renewed only before it ends. */
  lemma ReadLeaseIsExact(s: Store, lease: LeaseId)
    ensures RenewRead(s, lease).Some? <==> lease in s.readLeases && s.readLeases[lease].expires > s.now
    ensures RenewRead(s, lease).Some? ==> var t := RenewRead(s, lease).value;
      t.readLeases == s.readLeases[lease := ReadLease(s.readLeases[lease].version, s.now + 600)]
  {
  }

  // ----- Borrowing

  /** A job reads what it has pinned, and pins the head when it has not; other callers read the head and pin nothing. */
  lemma BorrowIsExact(s: Store, lease: LeaseId, profile: Profile, ctx: Context)
    requires Borrow(s, lease, profile, ctx).Some?
    ensures var t := Borrow(s, lease, profile, ctx).value; var given := t.readLeases[lease].version;
      && t.readLeases == s.readLeases[lease := ReadLease(given, s.now + 600)]
      && (ctx.NoJob? ==> profile in s.heads && given == s.heads[profile] && t.pins == s.pins)
      && (ctx.InJob? && (ctx.id, profile) in s.pins ==> given == s.pins[(ctx.id, profile)] && t.pins == s.pins)
      && (ctx.InJob? && (ctx.id, profile) !in s.pins ==>
           profile in s.heads && given == s.heads[profile] && t.pins == s.pins[(ctx.id, profile) := given])
  {
    var t := Borrow(s, lease, profile, ctx).value;
    if ctx.InJob? && (ctx.id, profile) in s.pins {
      assert s.pins[(ctx.id, profile) := s.pins[(ctx.id, profile)]] == s.pins;
    }
  }

  lemma StepKeepsCompleted(s: Store, e: Event, job: JobId)
    requires Completed(s, job)
    ensures Completed(Step(s, e), job)
  {
    hide Fenced, CanPrune, Removable, Orphans, LeaseFree, Current, Choice, AllHome, LivingLeases, PowerfulPins, Holds,
      CanPrepare, CanCommit, ContextOk, Protected;
  }

  lemma OtherStepKeepsPins(s: Store, e: Event)
    requires !e.DoBorrow? && !e.DoPrune?
    ensures Step(s, e).pins == s.pins
  {
    hide Fenced, CanPrune, Removable, Orphans, LeaseFree, Current, AllHome, LivingLeases, Holds, CanPrepare, CanCommit,
      ContextOk, Protected, Completed, PowerfulPins;
  }

  lemma PruneKeepsPin(s: Store, e: Event, job: JobId, profile: Profile)
    requires e.DoPrune? && (job, profile) in s.pins && !Completed(s, job)
    ensures (job, profile) in Step(s, e).pins && Step(s, e).pins[(job, profile)] == s.pins[(job, profile)]
  {
    hide CanPrune, Removable, Orphans, AllHome, LivingLeases, Completed;
  }

  lemma StepKeepsPin(s: Store, e: Event, job: JobId, profile: Profile)
    requires (job, profile) in s.pins && !Completed(s, job)
    ensures (job, profile) in Step(s, e).pins && Step(s, e).pins[(job, profile)] == s.pins[(job, profile)]
  {
    hide Completed;
    if e.DoBorrow? {
      hide Borrow;
      if Borrow(s, e.lease, e.profile, e.ctx).Some? {
        BorrowIsExact(s, e.lease, e.profile, e.ctx);
      }
    } else if e.DoPrune? {
      PruneKeepsPin(s, e, job, profile);
    } else {
      hide Step;
      OtherStepKeepsPins(s, e);
    }
  }

  lemma {:induction false} RunKeepsPin(s: Store, events: seq<Event>, job: JobId, profile: Profile)
    requires (job, profile) in s.pins
    ensures Completed(Run(s, events), job)
      || ((job, profile) in Run(s, events).pins && Run(s, events).pins[(job, profile)] == s.pins[(job, profile)])
    decreases |events|
  {
    hide Step, Completed;
    if events != [] {
      var r := Run(s, events[..|events| - 1]);
      RunKeepsPin(s, events[..|events| - 1], job, profile);
      if Completed(r, job) {
        StepKeepsCompleted(r, events[|events| - 1], job);
      } else {
        StepKeepsPin(r, events[|events| - 1], job, profile);
      }
    }
  }

  /** A job reads one version per profile for as long as it runs, whatever is published in the meantime. */
  lemma LaterBorrowsReadThePin(s: Store, events: seq<Event>, job: JobId, profile: Profile, first: LeaseId,
      later: LeaseId)
    requires Borrow(s, first, profile, InJob(job, true)).Some?
    requires var r := Run(Borrow(s, first, profile, InJob(job, true)).value, events);
      Borrow(r, later, profile, InJob(job, true)).Some?
    ensures var t := Borrow(s, first, profile, InJob(job, true)).value;
      Borrow(Run(t, events), later, profile, InJob(job, true)).value.readLeases[later].version
        == t.readLeases[first].version
  {
    var t := Borrow(s, first, profile, InJob(job, true)).value;
    BorrowIsExact(s, first, profile, InJob(job, true));
    RunKeepsPin(t, events, job, profile);
    BorrowIsExact(Run(t, events), later, profile, InJob(job, true));
    hide Run;
  }

  // ----- Pruning

  /** Prune drops expired read leases and the pins of jobs that need none; heads, sources and publications stay. */
  lemma PruneLeaves(s: Store, token: Token, generation: nat, ctx: Context)
    requires Prune(s, token, generation, ctx).Some?
    ensures var t := Prune(s, token, generation, ctx).value;
      && (forall l :: l in t.readLeases <==> l in s.readLeases && s.readLeases[l].expires > s.now)
      && (forall l :: l in t.readLeases ==> t.readLeases[l] == s.readLeases[l])
      && (forall pin :: pin in t.pins <==> pin in s.pins && NeedsPins(s, pin.0))
      && (forall pin :: pin in t.pins ==> t.pins[pin] == s.pins[pin])
      && t.heads == s.heads && t.sources == s.sources && t.semantic == s.semantic && t.publications == s.publications
      && (forall v :: v in t.versions ==> v in s.versions && t.versions[v] == s.versions[v])
      && (forall v :: v in t.files ==> v in s.files && t.files[v] == s.files[v])
  {
    hide Fenced, Removable, Orphans, AllHome;
  }

  /** Nothing speaks for the version: no head, no head's parent, no unexpired lease, no pin of a job that needs it. */
  ghost predicate Unwanted(s: Store, v: VersionId) {
    && (forall k :: k in s.heads ==> s.heads[k] != v)
    && (forall k :: k in s.heads && s.heads[k] in s.versions ==> s.versions[s.heads[k]].parent != Some(v))
    && (forall l :: l in s.readLeases && s.readLeases[l].expires > s.now ==> s.readLeases[l].version != v)
    && (forall pin :: pin in s.pins && NeedsPins(s, pin.0) ==> s.pins[pin] != v)
  }

  lemma UnwantedIsUnprotected(s: Store, v: VersionId)
    ensures Unwanted(s, v) <==> !Protected(s, v)
  {
  }

  /** A prune that ends removes the rows and files of versions that nothing speaks for and that are a day old, and files
      without a row that are older than a day; it removes nothing else. */
  lemma PruneRemoves(s: Store, token: Token, generation: nat, ctx: Context, v: VersionId)
    requires Prune(s, token, generation, ctx).Some?
    ensures var t := Prune(s, token, generation, ctx).value;
      && (v in s.versions ==> (v !in t.versions <==> Unwanted(s, v) && s.versions[v].created <= s.now - 86400))
      && (v in s.files && v in s.versions ==> (v !in t.files <==> v !in t.versions))
      && (v in s.files && v !in s.versions ==> (v !in t.files <==> s.files[v].modified < s.now - 86400))
  {
    UnwantedIsUnprotected(s, v);
    hide Fenced, Protected, Unwanted, AllHome;
  }

  // ----- Publishing

  /** A commit changes the head of one profile, the row of one version and the readiness of the indexes it names. */
  lemma CommitChanges(s: Store, id: PubId, ctx: Context)
    requires CanCommit(s, id, ctx)
    ensures var p := s.publications[id]; var t := Commit(s, id, ctx).value;
      && (forall k :: k != p.profile ==>
        (k in t.heads <==> k in s.heads) && (k in s.heads ==> t.heads[k] == s.heads[k]))
      && (forall ix :: ix in t.semantic <==> ix in s.semantic || ix in p.ready)
      && (forall ix :: ix in t.semantic ==> t.semantic[ix] == if ix in p.ready then p.profile else s.semantic[ix])
      && t.files == s.files && t.readLeases == s.readLeases && t.pins == s.pins && t.sources == s.sources
  {
    hide Fenced, SameSources;
  }

  /** What a good publish call brings: a free lease, fresh ids, complete and current rows that can be embedded. */
  ghost predicate GoodCall(s: Store, token: Token, id: PubId, version: VersionId, profile: Profile,
      rows: seq<VectorRow>,
                           ready: set<IndexId>) {
    && LeaseFree(s) && token.Publisher? && token !in s.usedTokens && id !in s.usedPubs && version !in s.usedVersions
    && Acceptable(s.sources, rows, ready) && ready <= s.indexes
    && 1 <= profile.dimension <= 32768 && forall k :: 0 <= k < |rows| ==> Embeddable(rows[k].values, profile.dimension)
  }

  /** The steps of a publish call with nothing in between. */
  function Published(s: Store, token: Token, id: PubId, version: VersionId, profile: Profile, rows: seq<VectorRow>,
                     replace: set<IndexId>, ready: set<IndexId>): Store {
    var b := Step(Step(s, DoAcquire(token)),
      DoBegin(id, token, s.generation + 1, NoJob, profile, rows, replace, ready));
    Finished(b, id, version)
  }

  function Finished(b: Store, id: PubId, version: VersionId): Store {
    Step(Step(Step(Step(b, DoPrepare(id, version)), DoVerify(id, NoJob)), DoWriteFile(id)), DoCommit(id, NoJob))
  }

  lemma UndisturbedFrom(s: Store, token: Token, id: PubId, version: VersionId, profile: Profile, rows: seq<VectorRow>,
                        replace: set<IndexId>, ready: set<IndexId>)
    requires Inv(s) && BasesOk(s) && GoodCall(s, token, id, version, profile, rows, ready)
    ensures Published(s, token, id, version, profile, rows, replace, ready).heads == s.heads[profile := version]
  {
    hide Inv, BasesOk, Acceptable, LeaseFree, Step, CanPrepare, Undisturbed, Embeddable, Finished;
    var b := UndisturbedBegin(s, token, id, profile, rows, replace, ready);
    HeadCanBeBase(s, profile);
    GoodCallPrepares(s, b, b.publications[id]);
    UndisturbedEnd(b, id, version);
  }

  /** In every reachable state a publication that nobody disturbs moves the head: the checks ask for nothing else. */
  lemma UndisturbedPublishMovesHead(events: seq<Event>, token: Token, id: PubId, version: VersionId, profile: Profile,
                                    rows: seq<VectorRow>, replace: set<IndexId>, ready: set<IndexId>)
    requires GoodCall(Run(EMPTY, events), token, id, version, profile, rows, ready)
    ensures Published(Run(EMPTY, events), token, id, version, profile, rows, replace, ready).heads
         == Run(EMPTY, events).heads[profile := version]
  {
    RunKeepsBases(EMPTY, events);
    hide Run, GoodCall, Published, Inv, BasesOk;
    UndisturbedFrom(Run(EMPTY, events), token, id, version, profile, rows, replace, ready);
  }

  lemma GoodCallPrepares(s: Store, b: Store, p: Publication)
    requires Inv(s) && BasesOk(s) && b.files == s.files
    requires p.base == Get(s.heads, p.profile)
    requires p.baseRow == if p.base.Some? then Get(s.versions, p.base.value) else None
    requires Acceptable(p.sources, p.rows, p.ready) && 1 <= p.profile.dimension <= 32768
    requires forall k :: 0 <= k < |p.rows| ==> Embeddable(p.rows[k].values, p.profile.dimension)
    ensures CanPrepare(b, p)
  {
    HeadCanBeBase(s, p.profile);
    hide Inv, BasesOk, Acceptable, Embeddable;
  }

  /** A publication just begun, under a lease taken for it, from the state it still finds. */
  ghost predicate Undisturbed(b: Store, id: PubId, p: Publication) {
    && id in b.publications && b.publications[id] == p && p.stage.Claimed? && b.heads == p.heads
      && b.sources == p.sources
    && p.ready <= b.indexes && b.lease == Some(WriterLease(p.token, b.now + 300)) && b.generation == p.generation
  }

  lemma UndisturbedBegin(s: Store, token: Token, id: PubId, profile: Profile, rows: seq<VectorRow>,
      replace: set<IndexId>,
                         ready: set<IndexId>) returns (b: Store)
    requires LeaseFree(s) && token.Publisher? && token !in s.usedTokens && id !in s.usedPubs && ready <= s.indexes
    ensures b
      == Step(Step(s, DoAcquire(token)), DoBegin(id, token, s.generation + 1, NoJob, profile, rows, replace, ready))
    ensures id in b.publications && Undisturbed(b, id, b.publications[id])
    ensures var p := b.publications[id];
      && p.profile == profile && p.rows == rows && p.replace == replace && p.ready == ready && p.sources == s.sources
      && p.base == Get(s.heads, profile) && p.baseRow == (if p.base.Some? then Get(s.versions, p.base.value) else None)
    ensures b.files == s.files && b.heads == s.heads && b.versions == s.versions && b.usedVersions == s.usedVersions
  {
    var a := Acquire(s, token).value;
    b := Begin(a, id, token, s.generation + 1, NoJob, profile, rows, replace, ready).value;
  }

  lemma UndisturbedEnd(b: Store, id: PubId, version: VersionId)
    requires id in b.publications && Undisturbed(b, id, b.publications[id]) && CanPrepare(b, b.publications[id])
    requires version !in b.usedVersions && version !in b.files
    ensures Finished(b, id, version).heads == b.heads[b.publications[id].profile := version]
  {
    hide CanPrepare, Built;
    var c := Prepare(b, id, version).value;
    var p := c.publications[id];
    var d := Verify(c, id, NoJob).value;
    hide Undisturbed;
    UndisturbedWrite(d, id);
  }

  lemma UndisturbedWrite(d: Store, id: PubId)
    requires id in d.publications && d.publications[id].stage.Verified? && d.publications[id].stage.version !in d.files
    requires var p := d.publications[id];
      && d.heads == p.heads && d.sources == p.sources && p.ready <= d.indexes
      && d.lease == Some(WriterLease(p.token, d.now + 300)) && d.generation == p.generation
    ensures Step(Step(d, DoWriteFile(id)), DoCommit(id, NoJob)).heads
         == d.heads[d.publications[id].profile := d.publications[id].stage.version]
  {
    var e := WriteFile(d, id).value;
    assert CanCommit(e, id, NoJob);
  }

  lemma HeadCanBeBase(s: Store, profile: Profile)
    requires Inv(s) && BasesOk(s)
    ensures s.files.Keys <= s.usedVersions
    ensures profile in s.heads ==> (
      && s.heads[profile] in s.versions && BaseIntact(s, s.versions[s.heads[profile]])
      && s.versions[s.heads[profile]].digest.profile == profile)
  {
    assert profile in s.heads ==> IsHead(s, s.heads[profile]) && Safe(s, s.heads[profile]);
  }

  // ----- What may be published

  /** str.strip leaves nothing of the content. */
  lemma BlankIsExact(content: string)
    ensures Blank(content) <==> forall k :: 0 <= k < |content| ==> content[k] in " \t\n\r\U{0b}\U{0c}"
  {
  }

  /** Nothing foreign and nothing outdated is published: each row belongs to a source that was current when the
      publication began and has the same index and content at the commit, and each index made ready is current then. */
  lemma OnlySourcesArePublished(events: seq<Event>, id: PubId, ctx: Context, k: nat)
    requires CanCommit(Run(EMPTY, events), id, ctx) && k < |Run(EMPTY, events).publications[id].rows|
    ensures var s := Run(EMPTY, events); var p := s.publications[id]; var r := p.rows[k];
      && r.chunk in p.sources && p.sources[r.chunk] == Source(r.paper, r.index, r.content)
      && r.chunk in s.sources && s.sources[r.chunk].index == r.index && s.sources[r.chunk].content == r.content
      && p.ready <= s.indexes && (forall ix :: ix in p.ready ==> ix in s.indexes)
  {
    var s := Run(EMPTY, events);
    RunKeepsBases(EMPTY, events);
    assert BaseOk(s, s.publications[id]);
    hide Run, Inv, BasesOk, Fenced, Built, Buildable;
    assert Authorized(s.publications[id].sources, s.publications[id].rows[k]);
  }
}

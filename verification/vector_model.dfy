/** The vector library of one user as a transition system. Every database session that locks or updates the
    store row is one step; file writes, clock ticks, job changes and source changes happen between them. */
module VectorModel {
  import opened Options
  import opened Snapshots

  type VersionId = nat
  type JobId = nat
  type LeaseId = nat
  type PubId = nat

  /** Lease tokens; prune keeps its own token to itself, so it never fences a publication. */
  datatype Token = Publisher(id: nat) | Pruner(id: nat)

  const WRITER_LEASE := 5 * 60
  const READ_LEASE := 10 * 60
  const DAY := 24 * 60 * 60
  const FAILED_PIN_GRACE := 7 * DAY

  datatype JobStatus = Queued | Running | CancelRequested | Succeeded | Failed | Cancelled | Interrupted

  predicate Terminal(status: JobStatus) { status in {Succeeded, Failed, Cancelled, Interrupted} }

  datatype Job = Job(status: JobStatus, updated: int)
  datatype WriterLease = WriterLease(token: Token, expires: int)
  datatype ReadLease = ReadLease(version: VersionId, expires: int)
  datatype File = File(bytes: Snapshot, modified: int)

  /** A version row; `home` is the version its object key names, `digest` stands for size and hash of the file. */
  datatype Version = Version(profile: Profile, parent: Option<VersionId>, created: int, home: VersionId,
    digest: Snapshot)

  /** A current, ready, non-reference chunk of an active paper. */
  datatype Source = Source(paper: string, index: IndexId, content: string)
  type Sources = map<ChunkId, Source>

  /** The job on whose behalf a call runs; `leaseHeld` says whether its execution lease still matches. */
  datatype Context = NoJob | InJob(id: JobId, leaseHeld: bool)

  /** How far a publish call has come. */
  datatype Stage = Claimed | Prepared(version: VersionId, snapshot: Snapshot)
                 | Verified(version: VersionId, snapshot: Snapshot) | Written(version: VersionId, snapshot: Snapshot)

  /** The local variables of a publish call. */
  datatype Publication = Publication(
    token: Token, generation: nat, profile: Profile, rows: seq<VectorRow>, replace: set<IndexId>, ready: set<IndexId>,
    heads: map<Profile, VersionId>, base: Option<VersionId>, baseRow: Option<Version>, sources: Sources, stage: Stage)

  datatype Store = Store(
    now: int,
    heads: map<Profile, VersionId>, generation: nat, lease: Option<WriterLease>,
    versions: map<VersionId, Version>, readLeases: map<LeaseId, ReadLease>, pins: map<(JobId, Profile), VersionId>,
    jobs: map<JobId, Job>, sources: Sources, indexes: set<IndexId>, semantic: map<IndexId, Profile>,
    files: map<VersionId, File>, publications: map<PubId, Publication>,
    usedTokens: set<Token>, usedVersions: set<VersionId>, usedLeases: set<LeaseId>, usedPubs: set<PubId>)

  const EMPTY := Store(0, map[], 0, None, map[], map[], map[], map[], map[], {}, map[], map[], map[], {}, {}, {}, {})

  function Get<K, V>(m: map<K, V>, k: K): Option<V> { if k in m then Some(m[k]) else None }

  // ----- Writer lease

  predicate LeaseFree(s: Store) { s.lease.None? || s.lease.value.expires < s.now }

  /** writer: one conditional update claims a free or expired lease and issues the next generation. */
  function Acquire(s: Store, token: Token): Option<Store> {
    if token !in s.usedTokens && LeaseFree(s)
    then Some(s.(lease := Some(WriterLease(token, s.now + WRITER_LEASE)), generation := s.generation + 1,
                 usedTokens := s.usedTokens + {token}))
    else None
  }

  predicate Holds(s: Store, token: Token, generation: nat) {
    s.lease.Some? && s.lease.value.token == token && s.generation == generation
  }

  predicate Current(s: Store, token: Token, generation: nat) {
    Holds(s, token, generation) && s.lease.value.expires > s.now
  }

  function Extended(s: Store, token: Token): Store { s.(lease := Some(WriterLease(token, s.now + WRITER_LEASE))) }

  function Renew(s: Store, token: Token, generation: nat): Option<Store> {
    if Current(s, token, generation) then Some(Extended(s, token)) else None
  }

  function ReleaseWriter(s: Store, token: Token, generation: nat): Store {
    if Holds(s, token, generation) then s.(lease := None) else s
  }

  predicate ContextOk(s: Store, ctx: Context) {
    ctx.InJob? ==> ctx.leaseHeld && ctx.id in s.jobs && s.jobs[ctx.id].status == Running
  }

  /** _fence: the lease row still carries this token and generation, unexpired, and the job still runs. */
  predicate Fenced(s: Store, token: Token, generation: nat, ctx: Context) {
    Current(s, token, generation) && ContextOk(s, ctx)
  }

  // ----- Publication

  predicate IsSpace(c: char) { c in {' ', '\t', '\n', '\r'} || c == 11 as char || c == 12 as char }

  /** content.strip() is empty. */
  predicate Blank(content: string) { forall k :: 0 <= k < |content| ==> IsSpace(content[k]) }

  function RequiredChunks(sources: Sources, index: IndexId): set<ChunkId> {
    set c | c in sources && sources[c].index == index && !Blank(sources[c].content)
  }

  function SuppliedChunks(rows: seq<VectorRow>, index: IndexId): set<ChunkId> {
    set k | 0 <= k < |rows| && rows[k].index == index :: rows[k].chunk
  }

  predicate Authorized(sources: Sources, r: VectorRow) {
    r.chunk in sources && Source(r.paper, r.index, r.content) == sources[r.chunk]
  }

  /** No ready index is incomplete, and every row matches a current source. */
  predicate Acceptable(sources: Sources, rows: seq<VectorRow>, ready: set<IndexId>) {
    && (forall ix :: ix in ready ==> RequiredChunks(sources, ix) == SuppliedChunks(rows, ix))
    && forall k :: 0 <= k < |rows| ==> Authorized(sources, rows[k])
  }

  function ValidIndexes(sources: Sources): set<IndexId> { set c | c in sources :: sources[c].index }

  /** Equal source hashes: the same chunks with the same index and content; the paper is not hashed. */
  predicate SameSources(a: Sources, b: Sources) {
    a.Keys == b.Keys && forall c :: c in a ==> a[c].index == b[c].index && a[c].content == b[c].content
  }

  /** First session of publish: fence, then read heads, base and sources. */
  function Begin(s: Store, id: PubId, token: Token, generation: nat, ctx: Context, profile: Profile,
                 rows: seq<VectorRow>, replace: set<IndexId>, ready: set<IndexId>): Option<Store> {
    if id !in s.usedPubs && token.Publisher? && Fenced(s, token, generation, ctx) then
      var base := Get(s.heads, profile);
      var baseRow := if base.Some? then Get(s.versions, base.value) else None;
      var pub :=
        Publication(token, generation, profile, rows, replace, ready, s.heads, base, baseRow, s.sources, Claimed);
      Some(Extended(s, token).(publications := s.publications[id := pub], usedPubs := s.usedPubs + {id}))
    else None
  }

  /** The base file as inspect_object must find it. */
  predicate BaseIntact(s: Store, row: Version) { row.home in s.files && s.files[row.home].bytes == row.digest }

  function BaseSnapshot(p: Publication): Option<Snapshot> {
    if p.baseRow.Some? then Some(p.baseRow.value.digest) else None
  }

  predicate CanPrepare(s: Store, p: Publication) {
    && Acceptable(p.sources, p.rows, p.ready)
    && (p.baseRow.Some? ==> BaseIntact(s, p.baseRow.value))
    && Buildable(p.profile, BaseSnapshot(p), p.rows)
  }

  /** The checks on the rows and the build in a private file, outside any transaction. */
  function Prepare(s: Store, id: PubId, version: VersionId): Option<Store> {
    if id in s.publications && s.publications[id].stage.Claimed? && version !in s.usedVersions
       && CanPrepare(s, s.publications[id]) then
      var p := s.publications[id];
      var snapshot := Built(p.profile, BaseSnapshot(p), p.rows, p.replace, ValidIndexes(p.sources));
      Some(s.(publications := s.publications[id := p.(stage := Prepared(version, snapshot))],
              usedVersions := s.usedVersions + {version}))
    else None
  }

  /** The session that fences again before the final file work. */
  function Verify(s: Store, id: PubId, ctx: Context): Option<Store> {
    if id in s.publications && s.publications[id].stage.Prepared?
       && Fenced(s, s.publications[id].token, s.publications[id].generation, ctx) then
      var p := s.publications[id];
      Some(Extended(s, p.token).(publications :=
        s.publications[id := p.(stage := Verified(p.stage.version, p.stage.snapshot))]))
    else None
  }

  /** commit_object: publishes the file once, whatever has become of the lease by then. */
  function WriteFile(s: Store, id: PubId): Option<Store> {
    if id in s.publications && s.publications[id].stage.Verified? && s.publications[id].stage.version !in s.files then
      var p := s.publications[id];
      Some(s.(files := s.files[p.stage.version := File(p.stage.snapshot, s.now)],
              publications := s.publications[id := p.(stage := Written(p.stage.version, p.stage.snapshot))]))
    else None
  }

  function MarkedReady(semantic: map<IndexId, Profile>, ready: set<IndexId>, profile: Profile): map<IndexId, Profile> {
    map ix | ix in semantic.Keys + ready :: if ix in ready then profile else semantic[ix]
  }

  predicate CanCommit(s: Store, id: PubId, ctx: Context) {
    && id in s.publications && s.publications[id].stage.Written?
    && var p := s.publications[id];
    && Fenced(s, p.token, p.generation, ctx)
    && s.heads == p.heads && SameSources(s.sources, p.sources)
    && p.ready <= s.indexes
  }

  /** Last session of publish: fence, compare heads and sources, then row, pointer and readiness in one commit. */
  function Commit(s: Store, id: PubId, ctx: Context): Option<Store> {
    if CanCommit(s, id, ctx) then
      var p := s.publications[id];
      var row := Version(p.profile, p.base, s.now, p.stage.version, p.stage.snapshot);
      Some(Extended(s, p.token).(
        versions := s.versions[p.stage.version := row],
        heads := s.heads[p.profile := p.stage.version],
        semantic := MarkedReady(s.semantic, p.ready, p.profile),
        publications := s.publications - {id}))
    else None
  }

  // ----- Readers

  function Choice(s: Store, profile: Profile, ctx: Context): Option<VersionId> {
    if ctx.InJob? && (ctx.id, profile) in s.pins then Some(s.pins[(ctx.id, profile)]) else Get(s.heads, profile)
  }

  /** borrow: a job keeps the version it first pinned, everybody else reads the head. */
  function Borrow(s: Store, lease: LeaseId, profile: Profile, ctx: Context): Option<Store> {
    var chosen := Choice(s, profile, ctx);
    if lease !in s.usedLeases && ContextOk(s, ctx) && chosen.Some? && chosen.value in s.versions then
      Some(s.(readLeases := s.readLeases[lease := ReadLease(chosen.value, s.now + READ_LEASE)],
              pins := if ctx.InJob? then s.pins[(ctx.id, profile) := chosen.value] else s.pins,
              usedLeases := s.usedLeases + {lease}))
    else None
  }

  function RenewRead(s: Store, lease: LeaseId): Option<Store> {
    if lease in s.readLeases && s.readLeases[lease].expires > s.now
    then Some(s.(readLeases := s.readLeases[lease := s.readLeases[lease].(expires := s.now + READ_LEASE)]))
    else None
  }

  function ReleaseRead(s: Store, lease: LeaseId): Store { s.(readLeases := s.readLeases - {lease}) }

  // ----- Pruning

  /** Jobs whose pins prune drops. */
  predicate Completed(s: Store, job: JobId) {
    && job in s.jobs
    && var j := s.jobs[job];
    (j.status in {Succeeded, Cancelled} || (j.status == Failed && j.updated < s.now - FAILED_PIN_GRACE))
  }

  predicate IsHead(s: Store, v: VersionId) { exists k :: k in s.heads && s.heads[k] == v }

  predicate IsHeadParent(s: Store, v: VersionId) {
    exists k :: k in s.heads && s.heads[k] in s.versions && s.versions[s.heads[k]].parent == Some(v)
  }

  predicate IsLeased(s: Store, v: VersionId) {
    exists l :: l in s.readLeases && s.readLeases[l].version == v && s.readLeases[l].expires > s.now
  }

  predicate IsPinned(s: Store, v: VersionId) { exists p :: p in s.pins && s.pins[p] == v && !Completed(s, p.0) }

  /** Heads, their parents, versions under an unexpired read lease, versions pinned by a job that is not completed. */
  predicate Protected(s: Store, v: VersionId) { IsHead(s, v) || IsHeadParent(s, v) || IsLeased(s, v) || IsPinned(s, v) }

  function Removable(s: Store): set<VersionId> {
    set v | v in s.versions && !Protected(s, v) && s.versions[v].created <= s.now - DAY
  }

  /** Files of failed publications: no version row and more than a day old. */
  function Orphans(s: Store): set<VersionId> {
    set v | v in s.files && v !in s.versions && s.files[v].modified < s.now - DAY
  }

  function LivingLeases(s: Store): map<LeaseId, ReadLease> {
    map l | l in s.readLeases && s.readLeases[l].expires > s.now :: s.readLeases[l]
  }

  function PowerfulPins(s: Store): map<(JobId, Profile), VersionId> {
    map p | p in s.pins && !Completed(s, p.0) :: s.pins[p]
  }

  predicate CanPrune(s: Store, token: Token, generation: nat, ctx: Context) {
    token.Pruner? && Fenced(s, token, generation, ctx)
  }

  /** What prune leaves when it runs to the end under the given lease. */
  function PrunedUnder(s: Store, lease: Option<WriterLease>): Store {
    s.(lease := lease, versions := s.versions - Removable(s), files := s.files - (Removable(s) + Orphans(s)),
       readLeases := LivingLeases(s), pins := PowerfulPins(s))
  }

  function Pruned(s: Store, token: Token): Store { PrunedUnder(s, Some(WriterLease(token, s.now + WRITER_LEASE))) }

  /** Every version to be removed names its own file; prune refuses to unlink anything else. */
  predicate AllHome(s: Store) { forall v :: v in Removable(s) ==> s.versions[v].home == v }

  function Prune(s: Store, token: Token, generation: nat, ctx: Context): Option<Store> {
    if CanPrune(s, token, generation, ctx) && AllHome(s)
    then Some(Pruned(s, token)) else None
  }

  /** prune raises after unlinking some files: the transaction rolls back, the files stay gone. */
  function PruneAborted(s: Store, token: Token, generation: nat, ctx: Context,
      unlinked: set<VersionId>): Option<Store> {
    if CanPrune(s, token, generation, ctx) && unlinked <= Removable(s) + Orphans(s)
    then Some(s.(files := s.files - unlinked)) else None
  }

  // ----- Surroundings

  /** Job status changes; a terminal job is left alone. */
  function SetJob(s: Store, job: JobId, status: JobStatus): Option<Store> {
    if (job !in s.jobs && !Terminal(status)) || (job in s.jobs && !Terminal(s.jobs[job].status))
    then Some(s.(jobs := s.jobs[job := Job(status, s.now)])) else None
  }

  datatype Event =
    | Tick(dt: nat)
    | DoAcquire(token: Token)
    | DoRenew(token: Token, generation: nat)
    | DoReleaseWriter(token: Token, generation: nat)
    | DoBegin(pub: PubId, token: Token, generation: nat, ctx: Context, profile: Profile, rows: seq<VectorRow>,
      replace: set<IndexId>, ready: set<IndexId>)
    | DoPrepare(pub: PubId, version: VersionId)
    | DoVerify(pub: PubId, ctx: Context)
    | DoWriteFile(pub: PubId)
    | DoCommit(pub: PubId, ctx: Context)
    | DoBorrow(lease: LeaseId, profile: Profile, ctx: Context)
    | DoRenewRead(lease: LeaseId)
    | DoReleaseRead(lease: LeaseId)
    | DoPrune(token: Token, generation: nat, ctx: Context)
    | DoPruneAborted(token: Token, generation: nat, ctx: Context, unlinked: set<VersionId>)
    | DoSetJob(job: JobId, status: JobStatus)
    | DoSetSources(sources: Sources, indexes: set<IndexId>)
    | DoForget(index: IndexId)

  /** One enabled step; None when the code raises or waits. */
  function Attempt(s: Store, e: Event): Option<Store> {
    match e
    case Tick(dt) => Some(s.(now := s.now + dt))
    case DoAcquire(token) => Acquire(s, token)
    case DoRenew(token, generation) => Renew(s, token, generation)
    case DoReleaseWriter(token, generation) => Some(ReleaseWriter(s, token, generation))
    case DoBegin(pub, token, generation, ctx, profile, rows, replace, ready) =>
      Begin(s, pub, token, generation, ctx, profile, rows, replace, ready)
    case DoPrepare(pub, version) => Prepare(s, pub, version)
    case DoVerify(pub, ctx) => Verify(s, pub, ctx)
    case DoWriteFile(pub) => WriteFile(s, pub)
    case DoCommit(pub, ctx) => Commit(s, pub, ctx)
    case DoBorrow(lease, profile, ctx) => Borrow(s, lease, profile, ctx)
    case DoRenewRead(lease) => RenewRead(s, lease)
    case DoReleaseRead(lease) => Some(ReleaseRead(s, lease))
    case DoPrune(token, generation, ctx) => Prune(s, token, generation, ctx)
    case DoPruneAborted(token, generation, ctx, unlinked) => PruneAborted(s, token, generation, ctx, unlinked)
    case DoSetJob(job, status) => SetJob(s, job, status)
    case DoSetSources(sources, indexes) => Some(s.(sources := sources, indexes := indexes))
    case DoForget(index) => Some(s.(semantic := s.semantic - {index}))
  }

  function Step(s: Store, e: Event): Store {
    var r := Attempt(s, e);
    if r.Some? then r.value else s
  }

  /** Any interleaving of publishers, readers, pruners, the clock and the rest of the system. */
  function Run(s: Store, events: seq<Event>): Store {
    if events == [] then s else Step(Run(s, events[..|events| - 1]), events[|events| - 1])
  }
}

/** LocalVectorStore over the rows of one user: each method is one database session, or the file work between two. */
module VectorStore {
  import opened Options
  import opened Snapshots
  import opened VectorModel

  class LocalVectorStore {
    // Rows and files
    var now: int
    var heads: map<Profile, VersionId>
    var generation: nat
    var lease: Option<WriterLease>
    var versions: map<VersionId, Version>
    var readLeases: map<LeaseId, ReadLease>
    var pins: map<(JobId, Profile), VersionId>
    var jobs: map<JobId, Job>
    var sources: Sources
    var indexes: set<IndexId>
    var semantic: map<IndexId, Profile>
    var files: map<VersionId, File>
    // Local variables of the publish calls in progress
    var publications: map<PubId, Publication>
    // Identifiers drawn so far
    ghost var usedTokens: set<Token>
    ghost var usedVersions: set<VersionId>
    ghost var usedLeases: set<LeaseId>
    ghost var usedPubs: set<PubId>

    ghost function Model(): Store
      reads this
    {
      Store(now, heads, generation, lease, versions, readLeases, pins, jobs, sources, indexes, semantic, files,
            publications, usedTokens, usedVersions, usedLeases, usedPubs)
    }

    constructor ()
      ensures Model() == EMPTY
    {
      now, heads, generation, lease, versions, readLeases, pins := 0, map[], 0, None, map[], map[], map[];
      jobs, sources, indexes, semantic, files, publications := map[], map[], {}, map[], map[], map[];
      usedTokens, usedVersions, usedLeases, usedPubs := {}, {}, {}, {};
    }

    /** writer: the conditional update; a fresh token claims a free or expired lease. */
    method Claim(token: Token) returns (claimed: Option<nat>)
      requires token !in usedTokens
      modifies this
      ensures claimed.Some? <==> Acquire(old(Model()), token).Some?
      ensures claimed.Some? ==> Some(Model()) == Acquire(old(Model()), token) && claimed == Some(generation)
      ensures claimed.None? ==> Model() == old(Model())
    {
      if lease.None? || lease.value.expires < now {
        lease := Some(WriterLease(token, now + WRITER_LEASE));
        generation := generation + 1;
        usedTokens := usedTokens + {token};
        return Some(generation);
      }
      return None;
    }

    /** The final clause of writer. */
    method Release(token: Token, fenceGeneration: nat)
      modifies this
      ensures Model() == ReleaseWriter(old(Model()), token, fenceGeneration)
    {
      if lease.Some? && lease.value.token == token && generation == fenceGeneration {
        lease := None;
      }
    }

    /** _fence: checks the lease and the job, and extends the lease. */
    method Fence(token: Token, fenceGeneration: nat, ctx: Context) returns (ok: bool)
      modifies this`lease
      ensures ok <==> Fenced(old(Model()), token, fenceGeneration, ctx)
      ensures Model() == if ok then Extended(old(Model()), token) else old(Model())
    {
      if lease.None? || lease.value.token != token || generation != fenceGeneration || lease.value.expires <= now {
        return false;
      }
      if ctx.InJob? && (!ctx.leaseHeld || ctx.id !in jobs || jobs[ctx.id].status != Running) {
        return false;
      }
      lease := Some(WriterLease(token, now + WRITER_LEASE));
      return true;
    }

    method BeginPublish(id: PubId, token: Token, fenceGeneration: nat, ctx: Context, profile: Profile,
                        rows: seq<VectorRow>, replace: set<IndexId>, ready: set<IndexId>) returns (ok: bool)
      requires id !in usedPubs && token.Publisher?
      modifies this
      ensures ok <==> Begin(old(Model()), id, token, fenceGeneration, ctx, profile, rows, replace, ready).Some?
      ensures
        if ok then Some(Model()) == Begin(old(Model()), id, token, fenceGeneration, ctx, profile, rows, replace, ready)
              else Model() == old(Model())
    {
      ok := Fence(token, fenceGeneration, ctx);
      if ok {
        var base := Get(heads, profile);
        var baseRow := if base.Some? && base.value in versions then Some(versions[base.value]) else None;
        var pub :=
          Publication(token, fenceGeneration, profile, rows, replace, ready, heads, base, baseRow, sources, Claimed);
        publications := publications[id := pub];
        usedPubs := usedPubs + {id};
      }
    }

    /** The checks of publish on its rows, index by index and row by row. */
    method CheckRows(known: Sources, rows: seq<VectorRow>, ready: set<IndexId>) returns (ok: bool)
      ensures ok <==> Acceptable(known, rows, ready)
    {
      var todo := ready;
      while todo != {}
        invariant todo <= ready
        invariant forall ix :: ix in ready - todo ==> RequiredChunks(known, ix) == SuppliedChunks(rows, ix)
        decreases todo
      {
        var ix :| ix in todo;
        var required := set c | c in known && known[c].index == ix && !Blank(known[c].content);
        var supplied := set k | 0 <= k < |rows| && rows[k].index == ix :: rows[k].chunk;
        if required != supplied {
          assert RequiredChunks(known, ix) != SuppliedChunks(rows, ix);
          return false;
        }
        todo := todo - {ix};
      }
      for k := 0 to |rows|
        invariant forall i :: 0 <= i < k ==> Authorized(known, rows[i])
      {
        var r := rows[k];
        if r.chunk !in known || Source(r.paper, r.index, r.content) != known[r.chunk] {
          assert !Authorized(known, rows[k]);
          return false;
        }
      }
      return true;
    }

    /** Checks, base inspection and build of one publish call. */
    method PreparePublish(id: PubId, version: VersionId) returns (ok: bool)
      requires id in publications && publications[id].stage.Claimed? && version !in usedVersions
      modifies this
      ensures ok <==> Prepare(old(Model()), id, version).Some?
      ensures if ok then Some(Model()) == Prepare(old(Model()), id, version) else Model() == old(Model())
    {
      hide Acceptable, Buildable;
      var p := publications[id];
      ok := CheckRows(p.sources, p.rows, p.ready);
      if !ok { return; }
      var base: Option<Snapshot> := None;
      if p.baseRow.Some? {
        var row := p.baseRow.value;
        if row.home !in files || files[row.home].bytes != row.digest {
          return false;
        }
        base := Some(files[row.home].bytes);
      }
      var valid := set c | c in p.sources :: p.sources[c].index;
      var built, _ := Build(p.profile, base, p.rows, p.replace, valid);
      if built.None? {
        return false;
      }
      publications := publications[id := p.(stage := Prepared(version, built.value))];
      usedVersions := usedVersions + {version};
    }

    method VerifyPublish(id: PubId, ctx: Context) returns (ok: bool)
      requires id in publications && publications[id].stage.Prepared?
      modifies this
      ensures ok <==> Verify(old(Model()), id, ctx).Some?
      ensures if ok then Some(Model()) == Verify(old(Model()), id, ctx) else Model() == old(Model())
    {
      var p := publications[id];
      ok := Fence(p.token, p.generation, ctx);
      if ok {
        publications := publications[id := p.(stage := Verified(p.stage.version, p.stage.snapshot))];
      }
    }

    /** commit_object refuses to replace a file. */
    method WriteObject(id: PubId) returns (ok: bool)
      requires id in publications && publications[id].stage.Verified?
      modifies this
      ensures ok <==> WriteFile(old(Model()), id).Some?
      ensures if ok then Some(Model()) == WriteFile(old(Model()), id) else Model() == old(Model())
    {
      var p := publications[id];
      if p.stage.version in files {
        return false;
      }
      files := files[p.stage.version := File(p.stage.snapshot, now)];
      publications := publications[id := p.(stage := Written(p.stage.version, p.stage.snapshot))];
      return true;
    }

    /** The readiness rows of a commit; a document that is no longer current raises. */
    method MarkReady(ready: set<IndexId>, profile: Profile) returns (ok: bool, marked: map<IndexId, Profile>)
      ensures ok <==> ready <= indexes
      ensures ok ==> marked == MarkedReady(semantic, ready, profile)
    {
      marked := semantic;
      var todo := ready;
      while todo != {}
        invariant todo <= ready && ready - todo <= indexes
        invariant marked.Keys == semantic.Keys + (ready - todo)
        invariant forall ix :: ix in marked ==> marked[ix] == if ix in ready - todo then profile else semantic[ix]
        decreases todo
      {
        var ix :| ix in todo;
        if ix !in indexes {
          return false, marked;
        }
        marked := marked[ix := profile];
        todo := todo - {ix};
      }
      return true, marked;
    }

    /** The comparisons of the last session with what the first one read. */
    method CheckUnchanged(p: Publication) returns (ok: bool, marked: map<IndexId, Profile>)
      ensures ok <==> heads == p.heads && SameSources(sources, p.sources) && p.ready <= indexes
      ensures ok ==> marked == MarkedReady(semantic, p.ready, p.profile)
    {
      hide MarkedReady;
      if heads != p.heads || !SameSources(sources, p.sources) {
        return false, semantic;
      }
      ok, marked := MarkReady(p.ready, p.profile);
    }

    /** The last session once its fence is passed; a failed check rolls back to `savedLease`. */
    method CommitLocked(id: PubId, p: Publication, savedLease: Option<WriterLease>) returns (ok: bool)
      requires p.stage.Written?
      modifies this`semantic, this`versions, this`heads, this`publications, this`lease
      ensures ok <==> old(heads) == p.heads && SameSources(sources, p.sources) && p.ready <= indexes
      ensures !ok ==> semantic == old(semantic) && versions == old(versions)
      ensures !ok ==> heads == old(heads) && publications == old(publications)
      ensures lease == if ok then old(lease) else savedLease
      ensures ok ==> heads == old(heads)[p.profile := p.stage.version]
      ensures ok ==>
        semantic == MarkedReady(old(semantic), p.ready, p.profile) && publications == old(publications) - {id}
      ensures ok ==>
        versions == old(versions)[p.stage.version := Version(p.profile, p.base, now, p.stage.version, p.stage.snapshot)]
    {
      hide SameSources, MarkedReady;
      var marked;
      ok, marked := CheckUnchanged(p);
      if ok {
        semantic := marked;
        versions := versions[p.stage.version := Version(p.profile, p.base, now, p.stage.version, p.stage.snapshot)];
        heads := heads[p.profile := p.stage.version];
        publications := publications - {id};
      } else {
        lease := savedLease;
      }
    }

    method CommitPublish(id: PubId, ctx: Context) returns (ok: bool)
      requires id in publications && publications[id].stage.Written?
      modifies this
      ensures ok <==> CanCommit(old(Model()), id, ctx)
      ensures if ok then Some(Model()) == Commit(old(Model()), id, ctx) else Model() == old(Model())
    {
      hide SameSources, MarkedReady, Fenced;
      var p := publications[id];
      var savedLease := lease;
      ok := Fence(p.token, p.generation, ctx);
      if ok {
        ok := CommitLocked(id, p, savedLease);
      }
    }

    /** borrow: lock the store row, prefer the pin, write the pin and the read lease. */
    method BorrowSnapshot(id: LeaseId, profile: Profile, ctx: Context) returns (version: Option<VersionId>)
      requires id !in usedLeases
      modifies this
      ensures version.Some? <==> Borrow(old(Model()), id, profile, ctx).Some?
      ensures version.Some? ==>
        Some(Model()) == Borrow(old(Model()), id, profile, ctx) && version == Choice(old(Model()), profile, ctx)
      ensures version.None? ==> Model() == old(Model())
    {
      var raw := Get(heads, profile);
      if ctx.InJob? {
        if !ctx.leaseHeld || ctx.id !in jobs || jobs[ctx.id].status != Running {
          return None;
        }
        if (ctx.id, profile) in pins {
          raw := Some(pins[(ctx.id, profile)]);
        }
      }
      if raw.None? || raw.value !in versions {
        return None;
      }
      if ctx.InJob? && (ctx.id, profile) !in pins {
        pins := pins[(ctx.id, profile) := raw.value];
      }
      readLeases := readLeases[id := ReadLease(raw.value, now + READ_LEASE)];
      usedLeases := usedLeases + {id};
      assert ctx.InJob? ==> pins == old(pins)[(ctx.id, profile) := raw.value];
      return raw;
    }

    method RenewReadLease(id: LeaseId) returns (ok: bool)
      modifies this
      ensures ok <==> RenewRead(old(Model()), id).Some?
      ensures if ok then Some(Model()) == RenewRead(old(Model()), id) else Model() == old(Model())
    {
      ok := id in readLeases && readLeases[id].expires > now;
      if ok {
        readLeases := readLeases[id := readLeases[id].(expires := now + READ_LEASE)];
      }
    }

    /** The versions prune must not touch, collected the way the code collects them. */
    method CollectKeep() returns (keep: set<VersionId>)
      ensures forall v :: v in keep <==> Protected(Model(), v)
    {
      keep := set k | k in heads :: heads[k];
      keep := keep + set v | v in versions && v in keep && versions[v].parent.Some? :: versions[v].parent.value;
      keep := keep + set l | l in readLeases && readLeases[l].expires > now :: readLeases[l].version;
      var completed := set j | j in jobs && (jobs[j].status in {Succeeded, Cancelled}
        || (jobs[j].status == Failed && jobs[j].updated < now - FAILED_PIN_GRACE));
      keep := keep + set p | p in pins && p.0 !in completed :: pins[p];
    }

    /** The loop of prune over the version rows. `budget` is the number of unlinks after which the file system
        fails, if it does. */
    method UnlinkVersions(keep: set<VersionId>, budget: Option<nat>)
      returns (raised: bool, left: Option<nat>, unlinked: set<VersionId>)
      modifies this`files
      ensures files == old(files) - unlinked && unlinked <= Aged(Model(), keep)
      ensures !raised ==> unlinked == Aged(Model(), keep) && forall v :: v in unlinked ==> versions[v].home == v
      ensures raised && budget.None? ==> exists v :: v in Aged(Model(), keep) && versions[v].home != v
      ensures budget.None? ==> left.None?
    {
      raised, left, unlinked := false, budget, {};
      var todo := versions.Keys;
      while todo != {}
        invariant todo <= versions.Keys
        invariant unlinked == Aged(Model(), keep) - todo
        invariant files == old(files) - unlinked
        invariant budget.None? ==> left.None?
        invariant forall v :: v in unlinked ==> versions[v].home == v
        decreases todo
      {
        var v :| v in todo;
        todo := todo - {v};
        if v in keep || versions[v].created > now - DAY {
          continue;
        }
        if versions[v].home != v || left == Some(0) {
          return true, left, unlinked;
        }
        left := if left.Some? then Some(left.value - 1) else None;
        files := files - {v};
        unlinked := unlinked + {v};
      }
    }

    /** The loop of prune over the object directory. */
    method UnlinkOrphans(registered: set<VersionId>, budget: Option<nat>)
      returns (raised: bool, unlinked: set<VersionId>)
      modifies this`files
      ensures files == old(files) - unlinked && unlinked <= Strays(old(files), registered, now)
      ensures !raised ==> unlinked == Strays(old(files), registered, now)
      ensures budget.None? ==> !raised
    {
      raised, unlinked := false, {};
      var left, children := budget, files.Keys;
      while children != {}
        invariant children <= old(files).Keys && children !! unlinked
        invariant unlinked == Strays(old(files), registered, now) - children
        invariant files == old(files) - unlinked
        invariant budget.None? ==> left.None?
        decreases children
      {
        var child :| child in children;
        children := children - {child};
        if child in registered || files[child].modified >= now - DAY {
          continue;
        }
        if left == Some(0) {
          return true, unlinked;
        }
        left := if left.Some? then Some(left.value - 1) else None;
        files := files - {child};
        unlinked := unlinked + {child};
      }
    }

    /** The file work of prune. */
    method UnlinkAll(keep: set<VersionId>, budget: Option<nat>)
      returns (raised: bool, pruned: set<VersionId>, unlinked: set<VersionId>)
      requires forall v :: v in keep <==> Protected(Model(), v)
      modifies this`files
      ensures files == old(files) - unlinked && unlinked <= Removable(old(Model())) + Orphans(old(Model()))
      ensures !raised ==>
        pruned == Removable(old(Model())) && unlinked == Removable(old(Model())) + Orphans(old(Model()))
      ensures !raised ==> AllHome(old(Model()))
      ensures raised && budget.None? ==> !AllHome(old(Model()))
    {
      ghost var s := Model();
      AgedIsRemovable(s, keep);
      hide Protected, Aged, Strays, Removable, Orphans;
      var left;
      raised, left, pruned := UnlinkVersions(keep, budget);
      AgedIgnoresFiles(s, Model(), keep);
      unlinked := pruned;
      if !raised {
        StraysAreOrphans(s, pruned);
        var orphans;
        raised, orphans := UnlinkOrphans(versions.Keys, left);
        MinusTwice(s.files, pruned, orphans);
        unlinked := unlinked + orphans;
      }
    }

    /** The row and file work of prune; raising keeps the rows and `restored` is the lease of the rollback. */
    method PruneRows(restored: Option<WriterLease>, budget: Option<nat>)
      returns (raised: bool, unlinked: set<VersionId>)
      modifies this`files, this`versions, this`readLeases, this`pins, this`lease
      ensures !raised ==> AllHome(old(Model())) && lease == old(lease)
      ensures !raised ==> unlinked == Removable(old(Model())) + Orphans(old(Model()))
      ensures !raised ==> versions == old(versions) - Removable(old(Model()))
      ensures !raised ==> readLeases == LivingLeases(old(Model())) && pins == PowerfulPins(old(Model()))
      ensures raised ==> unlinked <= Removable(old(Model())) + Orphans(old(Model())) && lease == restored
      ensures raised ==> versions == old(versions) && readLeases == old(readLeases) && pins == old(pins)
      ensures raised && budget.None? ==> !AllHome(old(Model()))
      ensures files == old(files) - unlinked
    {
      var keep := CollectKeep();
      hide AllHome, Removable, Orphans, LivingLeases, PowerfulPins, Protected;
      ghost var s := Model();
      var pruned;
      raised, pruned, unlinked := UnlinkAll(keep, budget);
      if raised {
        lease := restored;
      } else {
        versions := versions - pruned;
        SameLeavings(s, Model());
        DropExpired();
      }
    }

    /** The same in terms of the store `s` whose lease the fence has just extended. */
    method PruneLocked(ghost s: Store, savedLease: Option<WriterLease>, budget: Option<nat>)
      returns (raised: bool, unlinked: set<VersionId>)
      requires Model() == s.(lease := lease) && savedLease == s.lease
      modifies this`files, this`versions, this`readLeases, this`pins, this`lease
      ensures !raised ==> AllHome(s) && Model() == PrunedUnder(s, old(lease))
      ensures raised ==> unlinked <= Removable(s) + Orphans(s) && Model() == s.(files := s.files - unlinked)
      ensures raised && budget.None? ==> !AllHome(s)
    {
      hide AllHome, Removable, Orphans, LivingLeases, PowerfulPins, Protected, Completed;
      SameDoomed(s, Model());
      SameLeavings(s, Model());
      raised, unlinked := PruneRows(savedLease, budget);
    }

    /** prune. When it raises, the transaction is rolled back and the files already unlinked stay gone. */
    method PruneOld(token: Token, fenceGeneration: nat, ctx: Context, budget: Option<nat>)
      returns (done: bool, unlinked: set<VersionId>)
      requires token.Pruner?
      modifies this
      ensures done ==> CanPrune(old(Model()), token, fenceGeneration, ctx) && AllHome(old(Model()))
      ensures budget.None? && CanPrune(old(Model()), token, fenceGeneration, ctx) && AllHome(old(Model())) ==> done
      ensures Some(Model()) == PruneResult(old(Model()), token, fenceGeneration, ctx, done, unlinked)
    {
      hide Fenced, Removable, Orphans, AllHome, LivingLeases, PowerfulPins;
      unlinked := {};
      ghost var s := Model();
      var savedLease := lease;
      done := Fence(token, fenceGeneration, ctx);
      if done {
        var raised;
        raised, unlinked := PruneLocked(s, savedLease, budget);
        done := !raised;
      }
    }

    /** The two bulk deletions of prune: expired read leases, and the pins of completed jobs. */
    method DropExpired()
      modifies this`readLeases, this`pins
      ensures readLeases == LivingLeases(old(Model())) && pins == PowerfulPins(old(Model()))
    {
      readLeases := map l | l in readLeases && readLeases[l].expires > now :: readLeases[l];
      var completed := set j | j in jobs && (jobs[j].status in {Succeeded, Cancelled}
        || (jobs[j].status == Failed && jobs[j].updated < now - FAILED_PIN_GRACE));
      pins := map p | p in pins && p.0 !in completed :: pins[p];
    }
  }

  /** A finished or broken-off pruning; without the fence nothing happens. */
  function PruneResult(s: Store, token: Token, generation: nat, ctx: Context, done: bool,
      unlinked: set<VersionId>): Option<Store> {
    if done then Prune(s, token, generation, ctx)
    else if Fenced(s, token, generation, ctx) then PruneAborted(s, token, generation, ctx, unlinked)
    else Some(s)
  }

  /** The versions prune unlinks when `keep` is what it must not touch. */
  function Aged(s: Store, keep: set<VersionId>): set<VersionId> {
    set v | v in s.versions && v !in keep && s.versions[v].created <= s.now - DAY
  }

  function Strays(files: map<VersionId, File>, registered: set<VersionId>, now: int): set<VersionId> {
    set v | v in files && v !in registered && files[v].modified < now - DAY
  }

  lemma AgedIsRemovable(s: Store, keep: set<VersionId>)
    requires forall v :: v in keep <==> Protected(s, v)
    ensures Aged(s, keep) == Removable(s)
  {
  }

  lemma AgedIgnoresFiles(s: Store, t: Store, keep: set<VersionId>)
    requires t.versions == s.versions && t.now == s.now
    ensures Aged(t, keep) == Aged(s, keep)
  {
  }

  /** Deletions that touch neither rows nor clock leave the same leases and pins. */
  lemma SameLeavings(s: Store, t: Store)
    requires t.now == s.now && t.readLeases == s.readLeases && t.pins == s.pins && t.jobs == s.jobs
    ensures LivingLeases(t) == LivingLeases(s) && PowerfulPins(t) == PowerfulPins(s)
  {
  }

  lemma MinusTwice<V>(m: map<VersionId, V>, a: set<VersionId>, b: set<VersionId>)
    ensures (m - a) - b == m - (a + b)
  {
  }

  lemma StraysAreOrphans(s: Store, pruned: set<VersionId>)
    requires pruned <= s.versions.Keys
    ensures Strays(s.files - pruned, s.versions.Keys, s.now) == Orphans(s)
  {
  }

  /** A renewed lease dooms nothing. */
  lemma SameDoomed(s: Store, t: Store)
    requires t == s.(lease := t.lease)
    ensures Removable(t) == Removable(s) && Orphans(t) == Orphans(s) && AllHome(t) == AllHome(s)
  {
  }
}

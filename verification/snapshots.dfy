/** SQLiteVectors.build: a snapshot is its base, minus the rows of some indexes, plus the supplied rows. */
module Snapshots {
  import opened Options

  type ChunkId = string
  type IndexId = string

  /** retrieval_embedding profile; its key is a hash of model and dimension and stands for the pair. */
  datatype Profile = Profile(model: string, dimension: nat)

  /** A Python float: finite, or one of the values that math.isfinite refuses. */
  datatype Float = Finite(value: real) | NotFinite

  /** A row handed to publish. Content stands for its hash. */
  datatype VectorRow = VectorRow(chunk: ChunkId, paper: string, index: IndexId, content: string, ordinal: int,
    values: seq<Float>)

  datatype StoredRow = StoredRow(paper: string, index: IndexId, content: string, ordinal: int, embedding: seq<real>)

  type Table = map<ChunkId, StoredRow>

  /** The bytes of an index.sqlite file: identity metadata and the vectors table. */
  datatype Snapshot = Snapshot(profile: Profile, table: Table)

  const MAX_DIMENSION := 32768

  predicate AllFinite(values: seq<Float>) { forall k :: 0 <= k < |values| ==> values[k].Finite? }

  predicate AllZero(values: seq<Float>) { forall k :: 0 <= k < |values| ==> values[k] == Finite(0.0) }

  /** vector_blob's check: the declared dimension, only finite numbers, not the zero vector. */
  predicate Embeddable(values: seq<Float>, dimension: nat) {
    |values| == dimension && AllFinite(values) && !AllZero(values)
  }

  function Numbers(values: seq<Float>): seq<real>
    requires AllFinite(values)
  {
    seq(|values|, k requires 0 <= k < |values| => values[k].value)
  }

  function Stored(r: VectorRow): StoredRow
    requires AllFinite(r.values)
  {
    StoredRow(r.paper, r.index, r.content, r.ordinal, Numbers(r.values))
  }

  /** What a build leaves of the base table. */
  function Kept(base: Table, replace: set<IndexId>, valid: set<IndexId>): Table {
    map c | c in base && base[c].index !in replace && base[c].index in valid :: base[c]
  }

  /** Upserts in order: a later row for the same chunk overwrites an earlier one. */
  function Upserted(table: Table, rows: seq<VectorRow>): Table
    requires forall k :: 0 <= k < |rows| ==> AllFinite(rows[k].values)
  {
    if rows == [] then table
    else
      var last := rows[|rows| - 1];
      Upserted(table, rows[..|rows| - 1])[last.chunk := Stored(last)]
  }

  predicate Buildable(profile: Profile, base: Option<Snapshot>, rows: seq<VectorRow>) {
    && 1 <= profile.dimension <= MAX_DIMENSION
    && (base.Some? ==> base.value.profile == profile)
    && forall k :: 0 <= k < |rows| ==> Embeddable(rows[k].values, profile.dimension)
  }

  function Built(profile: Profile, base: Option<Snapshot>, rows: seq<VectorRow>, replace: set<IndexId>,
      valid: set<IndexId>): Snapshot
    requires Buildable(profile, base, rows)
  {
    Snapshot(profile, Upserted(Kept(if base.Some? then base.value.table else map[], replace, valid), rows))
  }

  method VectorBlob(values: seq<Float>, dimension: nat) returns (blob: Option<seq<real>>)
    ensures blob.Some? <==> Embeddable(values, dimension)
    ensures blob.Some? <==> (
      && |values| == dimension && (forall k :: 0 <= k < |values| ==> values[k].Finite?)
      && (exists k :: 0 <= k < |values| && values[k] != Finite(0.0)))
    ensures blob.Some? ==>
      |blob.value| == dimension && forall k :: 0 <= k < dimension ==> Finite(blob.value[k]) == values[k]
    ensures blob.Some? ==> exists k :: 0 <= k < dimension && blob.value[k] != 0.0
  {
    if |values| != dimension {
      return None;
    }
    var numbers: seq<real>, any := [], false;
    for k := 0 to |values|
      invariant |numbers| == k && forall i :: 0 <= i < k ==> Finite(numbers[i]) == values[i]
      invariant any <==> exists i :: 0 <= i < k && numbers[i] != 0.0
    {
      if values[k].NotFinite? {
        return None;
      }
      numbers := numbers + [values[k].value];
      any := any || values[k].value != 0.0;
    }
    if !any {
      assert forall k :: 0 <= k < |values| ==> values[k] == Finite(numbers[k]);
      return None;
    }
    var nonZero :| 0 <= nonZero < |numbers| && numbers[nonZero] != 0.0;
    assert values[nonZero] != Finite(0.0);
    return Some(numbers);
  }

  lemma UpsertNext(table: Table, rows: seq<VectorRow>, k: nat)
    requires k < |rows| && forall i :: 0 <= i <= k ==> AllFinite(rows[i].values)
    ensures Upserted(table, rows[..k + 1]) == Upserted(table, rows[..k])[rows[k].chunk := Stored(rows[k])]
  {
    assert rows[..k + 1][..k] == rows[..k];
  }

  /** The INSERT ... ON CONFLICT DO UPDATE of all rows; a bad vector raises. */
  method UpsertRows(kept: Table, rows: seq<VectorRow>, dimension: nat) returns (result: Option<Table>)
    ensures result.Some? <==> forall k :: 0 <= k < |rows| ==> Embeddable(rows[k].values, dimension)
    ensures result.Some? ==> result.value == Upserted(kept, rows)
  {
    hide Upserted;
    var table := kept;
    assert Upserted(kept, rows[..0]) == kept by { NothingUpserted(kept, rows); }
    for k := 0 to |rows|
      invariant forall i :: 0 <= i < k ==> Embeddable(rows[i].values, dimension)
      invariant table == Upserted(kept, rows[..k])
    {
      var r := rows[k];
      var blob := VectorBlob(r.values, dimension);
      if blob.None? {
        return None;
      }
      assert blob.value == Numbers(r.values);
      UpsertNext(kept, rows, k);
      table := table[r.chunk := StoredRow(r.paper, r.index, r.content, r.ordinal, blob.value)];
    }
    assert rows[..|rows|] == rows;
    return Some(table);
  }

  lemma NothingUpserted(table: Table, rows: seq<VectorRow>)
    ensures Upserted(table, rows[..0]) == table
  {
  }

  /** The last supplied row for a chunk decides; chunks without a row keep their base entry. */
  ghost predicate LastFor(rows: seq<VectorRow>, k: nat, c: ChunkId) {
    k < |rows| && rows[k].chunk == c && forall i :: k < i < |rows| ==> rows[i].chunk != c
  }

  ghost predicate Supplied(rows: seq<VectorRow>, c: ChunkId) { exists k :: 0 <= k < |rows| && rows[k].chunk == c }

  lemma {:induction false} LastExists(rows: seq<VectorRow>, c: ChunkId) returns (k: nat)
    requires Supplied(rows, c)
    ensures LastFor(rows, k, c)
    decreases |rows|
  {
    var n := |rows| - 1;
    if rows[n].chunk == c {
      k := n;
    } else {
      var i :| 0 <= i < |rows| && rows[i].chunk == c;
      assert rows[..n][i].chunk == c;
      k := LastExists(rows[..n], c);
    }
  }

  /** A built table holds exactly the supplied chunks, each as last supplied, and the base rows left alone. */
  lemma {:induction false} UpsertedIsDelta(table: Table, rows: seq<VectorRow>, c: ChunkId)
    requires forall k :: 0 <= k < |rows| ==> AllFinite(rows[k].values)
    ensures !Supplied(rows, c) ==> (c in Upserted(table, rows) <==> c in table)
    ensures !Supplied(rows, c) && c in table ==> Upserted(table, rows)[c] == table[c]
    ensures forall k: nat :: LastFor(rows, k, c) ==>
      c in Upserted(table, rows) && Upserted(table, rows)[c] == Stored(rows[k])
    decreases |rows|
  {
    if rows != [] {
      var n := |rows| - 1;
      var front := rows[..n];
      UpsertedIsDelta(table, front, c);
      assert !Supplied(rows, c) ==> !Supplied(front, c) && rows[n].chunk != c;
      forall k: nat | LastFor(rows, k, c)
        ensures c in Upserted(table, rows) && Upserted(table, rows)[c] == Stored(rows[k])
      {
        if k != n {
          assert LastFor(front, k, c) && rows[n].chunk != c;
        }
      }
    }
  }

  function TableOf(base: Option<Snapshot>): Table { if base.Some? then base.value.table else map[] }

  /** The stored row carries everything the supplied row says. */
  ghost predicate Carries(stored: StoredRow, r: VectorRow) {
    && stored.paper == r.paper && stored.index == r.index && stored.content == r.content && stored.ordinal == r.ordinal
    && |stored.embedding| == |r.values|
    && forall k :: 0 <= k < |r.values| ==> r.values[k] == Finite(stored.embedding[k])
  }

  /** The chunk has a base row that neither its index's replacement nor its index's end removes. */
  predicate Survives(base: Table, replace: set<IndexId>, valid: set<IndexId>, c: ChunkId) {
    c in base && base[c].index !in replace && base[c].index in valid
  }

  /** `table` is `base` without replaced and stale indexes, overlaid with the supplied rows, the last one of a chunk. */
  ghost predicate IsDelta(base: Table, rows: seq<VectorRow>, replace: set<IndexId>, valid: set<IndexId>, table: Table) {
    && (forall c :: !Supplied(rows, c) ==> (c in table <==> Survives(base, replace, valid, c)))
    && (forall c :: !Supplied(rows, c) && c in table ==> table[c] == base[c])
    && (forall c, k: nat :: LastFor(rows, k, c) ==> c in table && Carries(table[c], rows[k]))
  }

  /** A build keeps the base but for what it is told to drop or to overwrite. */
  lemma BuiltIsDelta(profile: Profile, base: Option<Snapshot>, rows: seq<VectorRow>, replace: set<IndexId>,
      valid: set<IndexId>)
    requires Buildable(profile, base, rows)
    ensures Built(profile, base, rows, replace, valid).profile == profile
    ensures IsDelta(TableOf(base), rows, replace, valid, Built(profile, base, rows, replace, valid).table)
  {
    var kept := Kept(TableOf(base), replace, valid);
    hide Upserted;
    forall c: ChunkId
      ensures !Supplied(rows, c) ==> (c in Upserted(kept, rows) <==> c in kept)
      ensures !Supplied(rows, c) && c in kept ==> Upserted(kept, rows)[c] == kept[c]
      ensures forall k: nat :: LastFor(rows, k, c) ==>
        c in Upserted(kept, rows) && Carries(Upserted(kept, rows)[c], rows[k])
    {
      UpsertedIsDelta(kept, rows, c);
      hide LastFor, Supplied;
    }
  }

  /** build: copy the base, delete, upsert row by row, count the rows; None is a raised ValueError. */
  method Build(profile: Profile, base: Option<Snapshot>, rows: seq<VectorRow>, replace: set<IndexId>,
      valid: set<IndexId>)
    returns (result: Option<Snapshot>, count: nat)
    ensures result.Some? <==> Buildable(profile, base, rows)
    ensures result.Some? ==> result.value == Built(profile, base, rows, replace, valid) && count == |result.value.table|
    ensures result.Some? <==> (
      && 1 <= profile.dimension <= 32768 && (base.Some? ==> base.value.profile == profile)
      && forall k :: 0 <= k < |rows| ==> Embeddable(rows[k].values, profile.dimension))
    ensures result.Some? ==>
      result.value.profile == profile && IsDelta(TableOf(base), rows, replace, valid, result.value.table)
  {
    if !(1 <= profile.dimension <= MAX_DIMENSION) || (base.Some? && base.value.profile != profile) {
      return None, 0;
    }
    hide IsDelta;
    var table: Table := if base.Some? then base.value.table else map[];
    table := map c | c in table && table[c].index !in replace :: table[c];
    table := map c | c in table && table[c].index in valid :: table[c];
    assert table == Kept(if base.Some? then base.value.table else map[], replace, valid);
    var filled := UpsertRows(table, rows, profile.dimension);
    if filled.None? {
      return None, 0;
    }
    BuiltIsDelta(profile, base, rows, replace, valid);
    return Some(Snapshot(profile, filled.value)), |filled.value|;
  }
}
